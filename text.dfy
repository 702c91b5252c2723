/**
 * Character and string helpers shared by the back end (C#) and the front end
 * (TypeScript): lower-casing, white-space tests, substring search, decimal
 * conversions, a single-character split and the ordinal string order used by
 * the document store when it sorts on a string field.
 */
module Text {
  import opened Wrappers

  /** Lower-casing of one character; only the ASCII letters change. */
  function LowerChar(c: char): char {
    if 'A' <= c <= 'Z' then (c as int + 32) as char else c
  }

  /** `string.ToLower()` / `String.prototype.toLowerCase()` on ASCII letters. */
  function ToLower(s: string): (r: string)
    ensures |r| == |s|
  {
    if s == [] then [] else [LowerChar(s[0])] + ToLower(s[1..])
  }

  /** Lower-casing works character by character. */
  lemma {:induction false} ToLowerAt(s: string)
    ensures forall i :: 0 <= i < |s| ==> ToLower(s)[i] == LowerChar(s[i])
  {
    if s != [] {
      ToLowerAt(s[1..]);
      assert forall i :: 0 < i < |s| ==> ToLower(s)[i] == ToLower(s[1..])[i - 1];
    }
  }

  /** A string without upper-case letters is its own lower-cased form. */
  lemma ToLowerOfLower(s: string)
    requires forall i :: 0 <= i < |s| ==> !('A' <= s[i] <= 'Z')
    ensures ToLower(s) == s
  {
    ToLowerAt(s);
  }

  /** Lower-casing a word whose other letters are all lower-case changes
      only its one other character. */
  lemma {:induction false} LowerOneChar(a: string, c: char, b: string)
    requires forall i :: 0 <= i < |a| ==> !('A' <= a[i] <= 'Z')
    requires forall i :: 0 <= i < |b| ==> !('A' <= b[i] <= 'Z')
    ensures ToLower(a + [c] + b) == a + [LowerChar(c)] + b
  {
    if a == [] {
      assert a + [c] + b == [c] + b;
      assert ([c] + b)[1..] == b;
      ToLowerOfLower(b);
    } else {
      LowerOneChar(a[1..], c, b);
      assert (a + [c] + b)[1..] == a[1..] + [c] + b;
      assert (a + [LowerChar(c)] + b)[1..] == a[1..] + [LowerChar(c)] + b;
    }
  }

  lemma LowerCharIdempotent(c: char)
    ensures LowerChar(LowerChar(c)) == LowerChar(c)
  {
  }

  /** Lower-casing twice is lower-casing once. */
  lemma ToLowerIdempotent(s: string)
    ensures ToLower(ToLower(s)) == ToLower(s)
  {
    forall i | 0 <= i < |s|
      ensures ToLower(ToLower(s))[i] == ToLower(s)[i]
    {
      LowerCharIdempotent(s[i]);
    }
  }

  /** The space separators of Unicode (general category Zs). */
  predicate IsSpaceSeparator(c: char) {
    c == ' ' || c == '\U{00A0}' || c == '\U{1680}' || ('\U{2000}' <= c <= '\U{200A}')
    || c == '\U{202F}' || c == '\U{205F}' || c == '\U{3000}'
  }

  /** `char.IsWhiteSpace` of .NET: the space separators, the line and
      paragraph separators U+2028 and U+2029, the controls U+0009 to U+000D
      and U+0085. */
  predicate IsWhiteSpace(c: char) {
    IsSpaceSeparator(c) || c == '\U{2028}' || c == '\U{2029}'
    || ('\t' <= c <= '\r') || c == '\U{0085}'
  }

  /** The white space and line terminators of ECMAScript, which `parseInt`
      skips: U+0009, U+000B, U+000C, U+FEFF, the space separators, and the
      terminators U+000A, U+000D, U+2028 and U+2029. Unlike .NET, it holds
      U+FEFF and not U+0085. */
  predicate IsJsWhiteSpace(c: char) {
    IsSpaceSeparator(c) || ('\t' <= c <= '\r') || c == '\U{FEFF}'
    || c == '\U{2028}' || c == '\U{2029}'
  }

  /** Every character of `s` is white space (vacuously so for ""). */
  predicate AllWhiteSpace(s: string) {
    |s| == 0 || (IsWhiteSpace(s[0]) && AllWhiteSpace(s[1..]))
  }

  lemma {:induction false} AllWhiteSpaceMeaning(s: string)
    ensures AllWhiteSpace(s) <==> forall i :: 0 <= i < |s| ==> IsWhiteSpace(s[i])
  {
    if |s| > 0 {
      AllWhiteSpaceMeaning(s[1..]);
      assert forall i :: 0 < i < |s| ==> s[i] == s[1..][i - 1];
    }
  }

  /** `string.IsNullOrWhiteSpace`. */
  predicate IsNullOrWhiteSpace(s: Option<string>) {
    s.None? || AllWhiteSpace(s.value)
  }

  /** `s` occurs in `t` at position `i`. */
  predicate OccursAt(t: string, s: string, i: int) {
    0 <= i && i + |s| <= |t| && t[i..i + |s|] == s
  }

  /** `t.Contains(s)`: `s` is a prefix of `t` or of one of its suffixes. */
  predicate Contains(t: string, s: string)
    decreases |t|
  {
    (|s| <= |t| && t[..|s|] == s) || (|t| > 0 && Contains(t[1..], s))
  }

  /** `Contains` means that `s` occurs somewhere in `t`. */
  lemma {:induction false} ContainsMeaning(t: string, s: string)
    ensures Contains(t, s) <==> exists i :: OccursAt(t, s, i)
    decreases |t|
  {
    if |t| > 0 {
      ContainsMeaning(t[1..], s);
      if Contains(t[1..], s) {
        var i :| OccursAt(t[1..], s, i);
        assert t[1..][i..i + |s|] == t[i + 1..i + 1 + |s|];
        assert OccursAt(t, s, i + 1);
      }
    }
    if |s| <= |t| && t[..|s|] == s {
      assert OccursAt(t, s, 0);
    }
    if exists i :: OccursAt(t, s, i) {
      var i :| OccursAt(t, s, i);
      if i > 0 {
        assert t[1..][i - 1..i - 1 + |s|] == t[i..i + |s|];
        assert OccursAt(t[1..], s, i - 1);
      } else {
        assert t[..|s|] == t[0..0 + |s|];
      }
    }
  }

  /** Case-insensitive containment: both sides lower-cased, then `Contains`. */
  predicate ContainsIgnoreCase(t: string, s: string) {
    Contains(ToLower(t), ToLower(s))
  }

  // ---------------------------------------------------------------------
  // Decimal digits: `parseInt(s, 10)` on well-formed input and `n.toString()`.

  predicate IsDigit(c: char) {
    '0' <= c <= '9'
  }

  function DigitValue(c: char): nat
    requires IsDigit(c)
  {
    c as int - '0' as int
  }

  function DigitChar(d: nat): (c: char)
    requires d < 10
    ensures IsDigit(c) && DigitValue(c) == d
  {
    ('0' as int + d) as char
  }

  /** A non-empty string of decimal digits. */
  predicate IsDigits(s: string) {
    |s| > 0 && forall i :: 0 <= i < |s| ==> IsDigit(s[i])
  }

  /** An optional minus sign followed by decimal digits: the inputs on which
      `parseInt(s, 10)` reads every character. */
  predicate IsIntString(s: string) {
    IsDigits(s) || (|s| > 1 && s[0] == '-' && IsDigits(s[1..]))
  }

  /** The value of a digit string, most significant digit first. */
  function ParseNat(s: string): nat
    requires forall i :: 0 <= i < |s| ==> IsDigit(s[i])
  {
    if s == [] then 0 else ParseNat(s[..|s| - 1]) * 10 + DigitValue(s[|s| - 1])
  }

  /** `parseInt(s, 10)` on an integer string. */
  function ParseInt(s: string): int
    requires IsIntString(s)
  {
    if IsDigits(s) then ParseNat(s) as int else -(ParseNat(s[1..]) as int)
  }

  /** Decimal digits of `n`, without leading zeros (`"0"` for zero). */
  function NatToString(n: nat): (s: string)
    ensures IsDigits(s)
    ensures s[0] == '0' ==> n == 0
  {
    if n < 10 then [DigitChar(n)] else NatToString(n / 10) + [DigitChar(n % 10)]
  }

  /** `n.toString()` for an integer `n`. */
  function IntToString(n: int): (s: string)
    ensures IsIntString(s)
  {
    if n >= 0 then NatToString(n) else "-" + NatToString(-n)
  }

  lemma {:induction false} ParseNatToString(n: nat)
    ensures ParseNat(NatToString(n)) == n
  {
    if n >= 10 {
      var s := NatToString(n);
      assert s[..|s| - 1] == NatToString(n / 10);
      ParseNatToString(n / 10);
    }
  }

  /** Reading back a printed integer gives the integer. */
  lemma ParseIntToString(n: int)
    ensures ParseInt(IntToString(n)) == n
  {
    if n >= 0 {
      ParseNatToString(n);
    } else {
      var s := IntToString(n);
      assert s[1..] == NatToString(-n);
      assert !IsDigits(s) by { assert !IsDigit(s[0]); }
      ParseNatToString(-n);
    }
  }

  /** `s` without its leading ECMAScript white space. */
  function TrimStart(s: string): (r: string)
    ensures r != [] ==> !IsJsWhiteSpace(r[0])
  {
    if s != [] && IsJsWhiteSpace(s[0]) then TrimStart(s[1..]) else s
  }

  /** The length of the run of digits that `s` starts with. */
  function DigitRun(s: string): (k: nat)
    ensures k <= |s|
    ensures forall i :: 0 <= i < k ==> IsDigit(s[i])
    ensures k < |s| ==> !IsDigit(s[k])
  {
    if s != [] && IsDigit(s[0]) then 1 + DigitRun(s[1..]) else 0
  }

  /** `parseInt(s, 10)`: leading white space is skipped, then an optional
      sign and the longest run of decimal digits are read. `None` is `NaN`,
      the result when no digit follows. */
  function ParseIntJs(s: string): Option<int> {
    var t := TrimStart(s);
    var signed := t != [] && (t[0] == '-' || t[0] == '+');
    var u := if signed then t[1..] else t;
    var k := DigitRun(u);
    if k == 0 then None
    else if signed && t[0] == '-' then Some(-(ParseNat(u[..k]) as int))
    else Some(ParseNat(u[..k]) as int)
  }

  /** On an integer string `parseInt` reads every character. */
  lemma ParseIntJsOfIntString(s: string)
    requires IsIntString(s)
    ensures ParseIntJs(s) == Some(ParseInt(s))
  {
    assert TrimStart(s) == s;
    if IsDigits(s) {
      assert s[..DigitRun(s)] == s;
    } else {
      assert s[1..][..DigitRun(s[1..])] == s[1..];
    }
  }

  /** Reading back a printed integer with `parseInt` gives the integer. */
  lemma ParseIntJsOfToString(n: int)
    ensures ParseIntJs(IntToString(n)) == Some(n)
  {
    ParseIntJsOfIntString(IntToString(n));
    ParseIntToString(n);
  }

  // ---------------------------------------------------------------------
  // `s.split(' ')` and `parts.join(' ')`.

    // ---------------------------------------------------------------------
  // UTF-16. A JavaScript string is a sequence of 16-bit code units, and
  // indexing it (`n[0]`) yields one unit. A character above U+FFFF takes two
  // units, a high and a low surrogate, so its first unit is half of it.

  type CodeUnit = u: int | 0 <= u < 0x1_0000

  predicate IsHighSurrogate(u: CodeUnit) {
    0xD800 <= u < 0xDC00
  }

  predicate IsLowSurrogate(u: CodeUnit) {
    0xDC00 <= u < 0xE000
  }

  /** The UTF-16 encoding of one character: the character itself below
      U+10000, otherwise a high and a low surrogate. */
  function CodeUnits(c: char): (us: seq<CodeUnit>)
    ensures c as int < 0x1_0000 ==> us == [c as int]
    ensures c as int >= 0x1_0000 ==> |us| == 2 && IsHighSurrogate(us[0]) && IsLowSurrogate(us[1])
  {
    var n := c as int;
    if n < 0x1_0000 then [n]
    else [0xD800 + (n - 0x1_0000) / 0x400, 0xDC00 + (n - 0x1_0000) % 0x400]
  }

  /** The character that one or two code units encode. */
  function DecodeUnits(us: seq<CodeUnit>): int
    requires |us| == 1 || |us| == 2
  {
    var hi: int, lo: int := us[0], us[|us| - 1];
    if |us| == 1 then hi else 0x1_0000 + (hi - 0xD800) * 0x400 + (lo - 0xDC00)
  }

  /** Decoding the units of a character gives the character back. */
  lemma CodeUnitsRoundTrip(c: char)
    ensures |CodeUnits(c)| == 1 || |CodeUnits(c)| == 2
    ensures DecodeUnits(CodeUnits(c)) == c as int
  {
    var n := c as int;
    if n >= 0x1_0000 {
      assert 0x1_0000 + ((n - 0x1_0000) / 0x400) * 0x400 + (n - 0x1_0000) % 0x400 == n;
    }
  }

  /** What JavaScript's `s[0]` reads from a string whose first character is
      `c`. */
  function FirstCodeUnit(c: char): CodeUnit {
    CodeUnits(c)[0]
  }

/** The parts of `s` between occurrences of `sep`, as `String.prototype.split`
      with a one-character separator: `n` separators give `n + 1` parts. */
  function Split(s: string, sep: char): (parts: seq<string>)
    ensures |parts| >= 1
  {
    if s == [] then [[]]
    else
      var rest := Split(s[1..], sep);
      if s[0] == sep then [[]] + rest else [[s[0]] + rest[0]] + rest[1..]
  }

  /** `parts.join(sep)`. */
  function Join(parts: seq<string>, sep: char): string {
    if parts == [] then []
    else if |parts| == 1 then parts[0]
    else parts[0] + [sep] + Join(parts[1..], sep)
  }

  /** Number of occurrences of `c` in `s`. */
  function CountChar(s: string, c: char): nat {
    if s == [] then 0 else (if s[0] == c then 1 else 0) + CountChar(s[1..], c)
  }

  /** Splitting yields one more part than there are separators, no part holds
      the separator, and joining the parts restores the string. */
  lemma {:induction false} SplitJoin(s: string, sep: char)
    ensures |Split(s, sep)| == CountChar(s, sep) + 1
    ensures forall k :: 0 <= k < |Split(s, sep)| ==> sep !in Split(s, sep)[k]
    ensures Join(Split(s, sep), sep) == s
  {
    if s != [] {
      SplitJoin(s[1..], sep);
      var rest := Split(s[1..], sep);
      if s[0] == sep {
        assert Split(s, sep)[1..] == rest;
        assert s == [sep] + s[1..];
      } else {
        var parts := Split(s, sep);
        assert parts[1..] == rest[1..];
        if |rest| == 1 {
          assert s == [s[0]] + rest[0];
        } else {
          assert Join(rest, sep) == rest[0] + [sep] + Join(rest[1..], sep);
          assert s == [s[0]] + s[1..];
        }
      }
    }
  }

  /** A part without the separator splits into itself. */
  lemma {:induction false} SplitWithoutSeparator(a: string, sep: char)
    requires sep !in a
    ensures Split(a, sep) == [a]
  {
    if a != [] {
      SplitWithoutSeparator(a[1..], sep);
      assert [a[0]] + a[1..] == a;
    }
  }

  /** Splitting `a`, a separator and `b` gives `a`, then the parts of `b`. */
  lemma {:induction false} SplitAfterPart(a: string, b: string, sep: char)
    requires sep !in a
    ensures Split(a + [sep] + b, sep) == [a] + Split(b, sep)
  {
    var s := a + [sep] + b;
    if a == [] {
      assert s[1..] == b;
    } else {
      assert s[1..] == a[1..] + [sep] + b;
      SplitAfterPart(a[1..], b, sep);
      assert [a[0]] + a[1..] == a;
    }
  }

  /** Joining parts that hold no separator and splitting again gives the
      parts back. */
  lemma {:induction false} SplitOfJoin(parts: seq<string>, sep: char)
    requires |parts| >= 1
    requires forall k :: 0 <= k < |parts| ==> sep !in parts[k]
    ensures Split(Join(parts, sep), sep) == parts
  {
    if |parts| == 1 {
      SplitWithoutSeparator(parts[0], sep);
    } else {
      assert forall k :: 0 <= k < |parts| - 1 ==> parts[1..][k] == parts[k + 1];
      SplitOfJoin(parts[1..], sep);
      SplitAfterPart(parts[0], Join(parts[1..], sep), sep);
      assert [parts[0]] + parts[1..] == parts;
    }
  }

  /** The text before the first `c` and the text after it (all of `s` and
      nothing when `s` holds no `c`). */
  function SplitAtFirst(s: string, c: char): (string, string) {
    if s == [] then ([], [])
    else if s[0] == c then ([], s[1..])
    else
      var r := SplitAtFirst(s[1..], c);
      ([s[0]] + r.0, r.1)
  }

  lemma {:induction false} SplitAtFirstOf(k: string, v: string, c: char)
    requires c !in k
    ensures SplitAtFirst(k + [c] + v, c) == (k, v)
  {
    var s := k + [c] + v;
    if k == [] {
      assert s[1..] == v;
    } else {
      assert s[1..] == k[1..] + [c] + v;
      SplitAtFirstOf(k[1..], v, c);
      assert [k[0]] + k[1..] == k;
    }
  }

  // ---------------------------------------------------------------------
  // Ordinal string order (character codes compared left to right).

  predicate StrLe(a: string, b: string) {
    if a == [] then true
    else if b == [] then false
    else if a[0] != b[0] then a[0] < b[0]
    else StrLe(a[1..], b[1..])
  }

  lemma {:induction false} StrLeTotal(a: string, b: string)
    ensures StrLe(a, b) || StrLe(b, a)
  {
    if a != [] && b != [] && a[0] == b[0] {
      StrLeTotal(a[1..], b[1..]);
    }
  }

  lemma {:induction false} StrLeTransitive(a: string, b: string, c: string)
    requires StrLe(a, b) && StrLe(b, c)
    ensures StrLe(a, c)
  {
    if a != [] && b != [] && c != [] && a[0] == b[0] && b[0] == c[0] {
      StrLeTransitive(a[1..], b[1..], c[1..]);
    }
  }
}
