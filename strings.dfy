/**
 * The pieces of Go's string semantics the model relies on: `len` (UTF-8 bytes),
 * `strings.TrimSpace`, joining with a separator, `%d` formatting, and the
 * character classes used by the regular expressions of the text cleaner.
 *
 * A Dafny `string` is a sequence of Unicode scalar values, so it stands for a
 * well-formed UTF-8 Go string; ranging over it yields Go's runes.
 */
module Strings {

  /** Number of bytes Go's UTF-8 encoding spends on one rune. */
  function Utf8Width(c: char): (w: nat)
    ensures 1 <= w <= 4
    ensures w == 1 <==> c as int < 0x80
  {
    if c as int < 0x80 then 1
    else if c as int < 0x800 then 2
    else if c as int < 0x10000 then 3
    else 4
  }

  /** Go's `len(s)`: the byte length of the UTF-8 encoding of `s`. */
  function ByteLen(s: string): (n: nat)
    ensures n >= |s|
    ensures n == 0 <==> s == []
  {
    if s == [] then 0 else ByteLen(s[..|s| - 1]) + Utf8Width(s[|s| - 1])
  }

  lemma {:induction false} ByteLenConcat(a: string, b: string)
    ensures ByteLen(a + b) == ByteLen(a) + ByteLen(b)
    decreases |b|
  {
    if b == [] {
      assert a + b == a;
    } else {
      var b' := b[..|b| - 1];
      assert (a + b)[..|a + b| - 1] == a + b';
      ByteLenConcat(a, b');
    }
  }

  /** An all-ASCII string has as many bytes as characters. */
  lemma {:induction false} ByteLenAscii(s: string)
    requires forall k :: 0 <= k < |s| ==> s[k] as int < 0x80
    ensures ByteLen(s) == |s|
    decreases |s|
  {
    if s != [] {
      ByteLenAscii(s[..|s| - 1]);
    }
  }

  /** `strings.Join(parts, sep)`. */
  function Join(parts: seq<string>, sep: string): string
    decreases |parts|
  {
    if |parts| == 0 then ""
    else if |parts| == 1 then parts[0]
    else Join(parts[..|parts| - 1], sep) + sep + parts[|parts| - 1]
  }

  lemma JoinAppend(parts: seq<string>, p: string, sep: string)
    ensures Join(parts + [p], sep) == if parts == [] then p else Join(parts, sep) + sep + p
  {
    assert (parts + [p])[..|parts|] == parts;
  }

  /** Joining two non-empty lists puts exactly one separator between them. */
  lemma {:induction false} JoinConcat(a: seq<string>, b: seq<string>, sep: string)
    requires a != [] && b != []
    ensures Join(a + b, sep) == Join(a, sep) + sep + Join(b, sep)
    decreases |b|
  {
    if |b| == 1 {
      JoinAppend(a, b[0], sep);
      assert a + b == a + [b[0]];
    } else {
      var b' := b[..|b| - 1];
      var last := b[|b| - 1];
      assert b == b' + [last];
      assert a + b == (a + b') + [last];
      JoinAppend(a + b', last, sep);
      JoinConcat(a, b', sep);
      JoinAppend(b', last, sep);
    }
  }

  /** Every character of a joined string comes from a part or from the separator. */
  lemma {:induction false} JoinChars(parts: seq<string>, sep: string, c: char)
    requires forall k :: 0 <= k < |parts| ==> c !in parts[k]
    requires c !in sep
    ensures c !in Join(parts, sep)
    decreases |parts|
  {
    if |parts| > 1 {
      JoinChars(parts[..|parts| - 1], sep, c);
    }
  }

  function DigitChar(d: nat): char
    requires d < 10
  {
    "0123456789"[d]
  }

  /** Decimal digits of a natural number, most significant first. */
  function Digits(n: nat): (s: string)
    ensures |s| >= 1
    ensures forall k :: 0 <= k < |s| ==> '0' <= s[k] <= '9'
    decreases n
  {
    if n < 10 then [DigitChar(n)] else Digits(n / 10) + [DigitChar(n % 10)]
  }

  /** Go's `fmt.Sprintf("%d", n)`. */
  function Decimal(n: int): (s: string)
    ensures |s| >= 1
    ensures n >= 0 ==> forall k :: 0 <= k < |s| ==> '0' <= s[k] <= '9'
  {
    if n < 0 then "-" + Digits(-n) else Digits(n)
  }

  /** The ASCII class `\s` of Go's regexp package: `[\t\n\f\r ]`. */
  predicate IsAsciiSpace(c: char) {
    c == '\t' || c == '\n' || c == '\U{0C}' || c == '\r' || c == ' '
  }

  /** The layout characters of `\s`, i.e. every member except the plain space. */
  predicate IsLayoutChar(c: char) {
    c == '\t' || c == '\n' || c == '\U{0C}' || c == '\r'
  }

  /** Go's `unicode.IsSpace`, which `strings.TrimSpace` trims. */
  predicate IsUnicodeSpace(c: char) {
    IsAsciiSpace(c) || c == '\U{0B}' || c == '\U{85}' || c == '\U{A0}' || c == '\U{1680}'
    || ('\U{2000}' <= c <= '\U{200A}') || c == '\U{2028}' || c == '\U{2029}'
    || c == '\U{202F}' || c == '\U{205F}' || c == '\U{3000}'
  }

  function TrimLeftSpace(s: string): (r: string)
    ensures |r| <= |s| && r == s[|s| - |r|..]
    ensures r == [] || !IsUnicodeSpace(r[0])
    ensures forall k :: 0 <= k < |s| - |r| ==> IsUnicodeSpace(s[k])
    decreases |s|
  {
    if s != [] && IsUnicodeSpace(s[0]) then TrimLeftSpace(s[1..]) else s
  }

  function TrimRightSpace(s: string): (r: string)
    ensures |r| <= |s| && r == s[..|r|]
    ensures r == [] || !IsUnicodeSpace(r[|r| - 1])
    ensures forall k :: |r| <= k < |s| ==> IsUnicodeSpace(s[k])
    decreases |s|
  {
    if s != [] && IsUnicodeSpace(s[|s| - 1]) then TrimRightSpace(s[..|s| - 1]) else s
  }

  /** Go's `strings.TrimSpace`: drops leading and trailing Unicode white space. */
  function TrimSpace(s: string): (r: string)
    ensures r == [] || (!IsUnicodeSpace(r[0]) && !IsUnicodeSpace(r[|r| - 1]))
    ensures r == [] <==> forall k :: 0 <= k < |s| ==> IsUnicodeSpace(s[k])
  {
    var left := TrimLeftSpace(s);
    var r := TrimRightSpace(left);
    assert r != [] ==> r[0] == left[0];
    r
  }

  /** Text without white space at either end is its own trim. */
  lemma TrimSpaceNoop(s: string)
    requires s == [] || (!IsUnicodeSpace(s[0]) && !IsUnicodeSpace(s[|s| - 1]))
    ensures TrimSpace(s) == s
  {
    assert TrimLeftSpace(s) == s;
  }

  /** No occurrence of the two-character string `[a, b]` in `s`. */
  ghost predicate NoPair(s: string, a: char, b: char) {
    forall k :: 0 <= k < |s| - 1 ==> !(s[k] == a && s[k + 1] == b)
  }

  /** No character of `s` is one of `\t \n \f \r`. */
  ghost predicate NoLayout(s: string) {
    forall k :: 0 <= k < |s| ==> !IsLayoutChar(s[k])
  }

  lemma NoPairSlice(s: string, i: nat, j: nat, a: char, b: char)
    requires i <= j <= |s| && NoPair(s, a, b)
    ensures NoPair(s[i..j], a, b)
  {
    forall k | 0 <= k < j - i - 1
      ensures !(s[i..j][k] == a && s[i..j][k + 1] == b)
    {
      assert s[i..j][k] == s[i + k] && s[i..j][k + 1] == s[i + k + 1];
    }
  }

  /** Trimming keeps every "no such pair" and "no layout character" fact. */
  lemma TrimSpaceKeeps(s: string, a: char, b: char)
    ensures NoPair(s, a, b) ==> NoPair(TrimSpace(s), a, b)
    ensures NoLayout(s) ==> NoLayout(TrimSpace(s))
  {
    var left := TrimLeftSpace(s);
    var r := TrimRightSpace(left);
    if NoPair(s, a, b) {
      NoPairSlice(s, |s| - |left|, |s|, a, b);
      NoPairSlice(left, 0, |r|, a, b);
    }
  }
}
