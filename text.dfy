/**
 * The handful of JavaScript string operations the core relies on, stated over
 * `seq<char>`: whitespace as `String.prototype.trim` and the regular-expression
 * class `\s` see it, `trim`/`trimEnd`, `split` on one character, `join`,
 * `includes`, `startsWith`, decimal rendering and `padStart`.
 */
module Text {

  /** The characters `trim()` removes and `\s` matches (ECMAScript WhiteSpace and LineTerminator). */
  predicate IsSpace(c: char) {
    c == ' ' || c == '\t' || c == '\n' || c == '\r' || c == '\U{000B}' || c == '\U{000C}'
    || c == '\U{00A0}' || c == '\U{1680}' || ('\U{2000}' <= c <= '\U{200A}')
    || c == '\U{2028}' || c == '\U{2029}' || c == '\U{202F}' || c == '\U{205F}'
    || c == '\U{3000}' || c == '\U{FEFF}'
  }

  /** The characters at which `.` stops and a multiline `$` matches. */
  predicate IsLineTerminator(c: char) {
    c == '\n' || c == '\r' || c == '\U{2028}' || c == '\U{2029}'
  }

  /** ASCII digits, the class `\d` without the `u` flag. */
  predicate IsDigit(c: char) {
    '0' <= c <= '9'
  }

  /** The class `[a-zA-Z0-9_-]`. */
  predicate IsNameChar(c: char) {
    ('a' <= c <= 'z') || ('A' <= c <= 'Z') || IsDigit(c) || c == '_' || c == '-'
  }

  /** The pattern `^[a-zA-Z0-9_-]+$` used for workflow and agent names. */
  predicate IsValidName(s: string) {
    |s| >= 1 && forall k :: 0 <= k < |s| ==> IsNameChar(s[k])
  }

  predicate AllSpace(s: string) {
    forall k :: 0 <= k < |s| ==> IsSpace(s[k])
  }

  /** `s.trimStart()`: drop leading whitespace. */
  function TrimStart(s: string): (r: string)
    ensures |r| <= |s|
    ensures r == [] || !IsSpace(r[0])
    ensures AllSpace(s[..|s| - |r|])
  {
    if s == [] || !IsSpace(s[0]) then s
    else
      var r := TrimStart(s[1..]);
      assert s[1..][..|s| - 1 - |r|] == s[1..|s| - |r|];
      assert s[..|s| - |r|] == [s[0]] + s[1..|s| - |r|];
      r
  }

  /** What `trimStart` keeps is the rest of the string after the leading whitespace. */
  lemma {:induction false} TrimStartSuffix(s: string)
    ensures TrimStart(s) == s[|s| - |TrimStart(s)|..]
  {
    if s != [] && IsSpace(s[0]) {
      TrimStartSuffix(s[1..]);
      assert s[1..][|s| - 1 - |TrimStart(s)|..] == s[|s| - |TrimStart(s)|..];
    }
  }

  /** `s.trimEnd()`: drop trailing whitespace. */
  function TrimEnd(s: string): (r: string)
    ensures |r| <= |s|
    ensures r == [] || !IsSpace(r[|r| - 1])
    ensures AllSpace(s[|r|..])
  {
    if s == [] || !IsSpace(s[|s| - 1]) then s
    else
      var r := TrimEnd(s[..|s| - 1]);
      assert s[..|s| - 1][|r|..] == s[|r|..|s| - 1];
      assert s[|r|..] == s[|r|..|s| - 1] + [s[|s| - 1]];
      r
  }

  /** What `trimEnd` keeps is the string up to the trailing whitespace. */
  lemma {:induction false} TrimEndPrefix(s: string)
    ensures TrimEnd(s) == s[..|TrimEnd(s)|]
  {
    if s != [] && IsSpace(s[|s| - 1]) {
      TrimEndPrefix(s[..|s| - 1]);
      assert s[..|s| - 1][..|TrimEnd(s)|] == s[..|TrimEnd(s)|];
    }
  }

  /** `s.trim()`. */
  function Trim(s: string): string {
    TrimEnd(TrimStart(s))
  }

  predicate StartsWith(s: string, prefix: string) {
    |prefix| <= |s| && s[..|prefix|] == prefix
  }

  predicate EndsWith(s: string, suffix: string) {
    |suffix| <= |s| && s[|s| - |suffix|..] == suffix
  }

  /** `hay.includes(needle)`. */
  predicate Contains(hay: string, needle: string)
    decreases |hay|
  {
    StartsWith(hay, needle) || (hay != [] && Contains(hay[1..], needle))
  }

  /** `s.split(sep)` for a one-character separator: "" splits into [""]. */
  function Split(s: string, sep: char): (r: seq<string>)
    ensures |r| >= 1
    ensures forall k :: 0 <= k < |r| ==> sep !in r[k]
  {
    if s == [] then [""]
    else
      var rest := Split(s[1..], sep);
      if s[0] == sep then [""] + rest
      else [[s[0]] + rest[0]] + rest[1..]
  }

  /** `parts.join(sep)`. */
  function Join(parts: seq<string>, sep: string): string {
    if parts == [] then ""
    else if |parts| == 1 then parts[0]
    else parts[0] + sep + Join(parts[1..], sep)
  }

  /** Splitting and then joining with the same separator gives the string back. */
  lemma {:induction false} JoinSplit(s: string, sep: char)
    ensures Join(Split(s, sep), [sep]) == s
  {
    if s != [] {
      JoinSplit(s[1..], sep);
      var rest := Split(s[1..], sep);
      if s[0] == sep {
        assert Split(s, sep) == [""] + rest;
        assert s == [sep] + s[1..];
      } else {
        var r := Split(s, sep);
        assert r == [[s[0]] + rest[0]] + rest[1..];
        if |rest| == 1 {
          assert Join(rest, [sep]) == rest[0];
        } else {
          assert Join(rest, [sep]) == rest[0] + [sep] + Join(rest[1..], [sep]);
          assert r[1..] == rest[1..];
        }
      }
    }
  }

  /** A string without the separator splits into itself alone. */
  lemma {:induction false} SplitNoSeparator(s: string, sep: char)
    requires sep !in s
    ensures Split(s, sep) == [s]
  {
    if s != [] {
      SplitNoSeparator(s[1..], sep);
      assert [s[0]] + s[1..] == s;
    }
  }

  /** Splitting at a separator occurrence concatenates the pieces. */
  lemma {:induction false} SplitConcat(a: string, b: string, sep: char)
    requires sep !in a
    ensures Split(a + [sep] + b, sep) == [a] + Split(b, sep)
  {
    if a == [] {
      assert a + [sep] + b == [sep] + b;
      assert ([sep] + b)[1..] == b;
    } else {
      assert (a + [sep] + b)[1..] == a[1..] + [sep] + b;
      SplitConcat(a[1..], b, sep);
      assert [a[0]] + a[1..] == a;
    }
  }

  /** A leading separator splits off an empty first piece. */
  lemma SplitLeadingSeparator(b: string, sep: char)
    ensures Split([sep] + b, sep) == [""] + Split(b, sep)
  {
    assert ([sep] + b)[1..] == b;
  }

  /** The decimal digit for 0..9. */
  function DigitChar(d: nat): char
    requires d < 10
  {
    ['0', '1', '2', '3', '4', '5', '6', '7', '8', '9'][d]
  }

  /** `String(n)` for a non-negative integer. */
  function NatToString(n: nat): (r: string)
    ensures |r| >= 1
    ensures forall k :: 0 <= k < |r| ==> IsDigit(r[k])
    ensures n >= 1 ==> r[0] != '0'
  {
    if n < 10 then [DigitChar(n)] else NatToString(n / 10) + [DigitChar(n % 10)]
  }

  /** The value of a string of decimal digits (the inverse of `NatToString`). */
  function DecimalValue(s: string): nat
    requires forall k :: 0 <= k < |s| ==> IsDigit(s[k])
  {
    if s == [] then 0
    else
      assert IsDigit(s[|s| - 1]);
      DecimalValue(s[..|s| - 1]) * 10 + ((s[|s| - 1] as int) - ('0' as int))
  }

  /** Reading back what `NatToString` wrote gives the number. */
  lemma {:induction false} DecimalValueOfNatToString(n: nat)
    ensures DecimalValue(NatToString(n)) == n
  {
    var r := NatToString(n);
    if n >= 10 {
      DecimalValueOfNatToString(n / 10);
      assert r[..|r| - 1] == NatToString(n / 10);
    }
  }

  /** A run of zeros is worth nothing. */
  lemma {:induction false} DecimalValueOfZeros(z: string)
    requires forall k :: 0 <= k < |z| ==> z[k] == '0'
    ensures DecimalValue(z) == 0
    decreases |z|
  {
    if z != [] {
      DecimalValueOfZeros(z[..|z| - 1]);
    }
  }

  /** Leading zeros do not change a decimal's value. */
  lemma {:induction false} DecimalValueLeadingZeros(z: string, s: string)
    requires forall k :: 0 <= k < |z| ==> z[k] == '0'
    requires forall k :: 0 <= k < |s| ==> IsDigit(s[k])
    ensures DecimalValue(z + s) == DecimalValue(s)
    decreases |s|
  {
    if s == [] {
      assert z + s == z;
      DecimalValueOfZeros(z);
    } else {
      var n := |z + s|;
      assert (z + s)[..n - 1] == z + s[..|s| - 1];
      assert (z + s)[n - 1] == s[|s| - 1];
      DecimalValueLeadingZeros(z, s[..|s| - 1]);
    }
  }

  /** `s.padStart(width, c)`: prefix copies of `c` up to the width. */
  function PadStart(s: string, width: nat, c: char): (r: string)
    ensures |r| == if |s| >= width then |s| else width
    ensures EndsWith(r, s)
    ensures forall k :: 0 <= k < |r| - |s| ==> r[k] == c
  {
    if |s| >= width then s else seq(width - |s|, _ => c) + s
  }

  /** Leading whitespace does not change `trimStart`. */
  lemma {:induction false} TrimStartSpacePrefix(w: string, s: string)
    requires AllSpace(w)
    ensures TrimStart(w + s) == TrimStart(s)
  {
    if w == [] {
      assert w + s == s;
    } else {
      assert (w + s)[0] == w[0];
      assert (w + s)[1..] == w[1..] + s;
      TrimStartSpacePrefix(w[1..], s);
    }
  }

  /** Trailing whitespace does not change `trimEnd`. */
  lemma {:induction false} TrimEndSpaceSuffix(s: string, w: string)
    requires AllSpace(w)
    ensures TrimEnd(s + w) == TrimEnd(s)
  {
    if w == [] {
      assert s + w == s;
    } else {
      var w' := w[..|w| - 1];
      assert (s + w)[..|s + w| - 1] == s + w';
      assert (s + w)[|s + w| - 1] == w[|w| - 1];
      TrimEndSpaceSuffix(s, w');
    }
  }

  /** Once a non-space character is met, `trimStart` keeps everything after it. */
  lemma {:induction false} TrimStartAppend(s: string, w: string)
    requires !AllSpace(s)
    ensures TrimStart(s + w) == TrimStart(s) + w
  {
    assert (s + w)[0] == s[0];
    if IsSpace(s[0]) {
      assert (s + w)[1..] == s[1..] + w;
      assert !AllSpace(s[1..]) by {
        var k :| 0 <= k < |s| && !IsSpace(s[k]);
        assert s[1..][k - 1] == s[k];
      }
      TrimStartAppend(s[1..], w);
    }
  }

  /** `trim` ignores whitespace added in front. */
  lemma TrimLeadingSpace(w: string, s: string)
    requires AllSpace(w)
    ensures Trim(w + s) == Trim(s)
  {
    TrimStartSpacePrefix(w, s);
  }

  /** `trim` ignores whitespace added at the end. */
  lemma TrimTrailingSpace(s: string, w: string)
    requires AllSpace(w)
    ensures Trim(s + w) == Trim(s)
  {
    if AllSpace(s) {
      assert AllSpace(s + w) by {
        forall k | 0 <= k < |s + w| ensures IsSpace((s + w)[k]) {
          if k >= |s| { assert (s + w)[k] == w[k - |s|]; }
        }
      }
      TrimStartSuffix(s + w);
      TrimStartSuffix(s);
      assert TrimStart(s + w) == [];
      assert TrimStart(s) == [];
    } else {
      TrimStartAppend(s, w);
      TrimEndSpaceSuffix(TrimStart(s), w);
    }
  }

  /** `trim` ignores whitespace added on either side. */
  lemma TrimPadded(w1: string, s: string, w2: string)
    requires AllSpace(w1) && AllSpace(w2)
    ensures Trim(w1 + s + w2) == Trim(s)
  {
    assert w1 + s + w2 == w1 + (s + w2);
    TrimLeadingSpace(w1, s + w2);
    TrimTrailingSpace(s, w2);
  }

  /** A string contains every infix of it. */
  lemma {:induction false} ContainsInfix(a: string, n: string, b: string)
    ensures Contains(a + n + b, n)
  {
    if a == [] {
      assert a + n + b == n + b;
      assert (n + b)[..|n|] == n;
    } else {
      assert (a + n + b)[1..] == a[1..] + n + b;
      ContainsInfix(a[1..], n, b);
    }
  }

  /** Containment survives a prefix. */
  lemma {:induction false} ContainsPrefixed(p: string, x: string, n: string)
    requires Contains(x, n)
    ensures Contains(p + x, n)
  {
    if p != [] {
      assert (p + x)[1..] == p[1..] + x;
      ContainsPrefixed(p[1..], x, n);
    } else {
      assert p + x == x;
    }
  }

  /** Text after an occurrence keeps it. */
  lemma {:induction false} ContainsSuffixed(x: string, suffix: string, n: string)
    requires Contains(x, n)
    ensures Contains(x + suffix, n)
    decreases |x|
  {
    if StartsWith(x, n) {
      assert (x + suffix)[..|n|] == x[..|n|];
    } else {
      ContainsSuffixed(x[1..], suffix, n);
      assert (x + suffix)[1..] == x[1..] + suffix;
    }
  }

  /** `needle` occurs in `hay` starting at index `k`. */
  predicate OccursAt(hay: string, needle: string, k: nat) {
    k + |needle| <= |hay| && hay[k..k + |needle|] == needle
  }

  /** An occurrence has a position. */
  lemma {:induction false} ContainsAt(hay: string, needle: string) returns (k: nat)
    requires Contains(hay, needle)
    ensures OccursAt(hay, needle, k)
    decreases |hay|
  {
    if StartsWith(hay, needle) {
      k := 0;
    } else {
      var j := ContainsAt(hay[1..], needle);
      assert hay[j + 1..j + 1 + |needle|] == hay[1..][j..j + |needle|];
      k := j + 1;
    }
  }

  /** A position holding the needle is an occurrence. */
  lemma {:induction false} AtContains(hay: string, needle: string, k: nat)
    requires OccursAt(hay, needle, k)
    ensures Contains(hay, needle)
    decreases k
  {
    if k > 0 {
      assert hay[1..][k - 1..k - 1 + |needle|] == hay[k..k + |needle|];
      AtContains(hay[1..], needle, k - 1);
    }
  }

  /** Trailing whitespace cannot hold an occurrence of text that ends in a non-space. */
  lemma ContainsBeforeTrailingSpace(s: string, needle: string)
    requires Contains(s, needle)
    requires |needle| > 0 && !IsSpace(needle[|needle| - 1])
    ensures Contains(TrimEnd(s), needle)
  {
    var k := ContainsAt(s, needle);
    var t := TrimEnd(s);
    TrimEndPrefix(s);
    var last := k + |needle| - 1;
    assert s[last] == s[k..k + |needle|][|needle| - 1];
    forall j | |t| <= j < |s|
      ensures IsSpace(s[j])
    {
      assert s[|t|..][j - |t|] == s[j];
    }
    assert last < |t|;
    assert t[k..k + |needle|] == s[k..k + |needle|];
    AtContains(t, needle, k);
  }

  lemma {:induction false} JoinContains(parts: seq<string>, sep: string, i: nat)
    requires i < |parts|
    ensures Contains(Join(parts, sep), parts[i])
  {
    if |parts| == 1 {
      ContainsInfix([], parts[0], []);
      assert [] + parts[0] + [] == parts[0];
    } else if i == 0 {
      ContainsInfix([], parts[0], sep + Join(parts[1..], sep));
      assert [] + parts[0] + (sep + Join(parts[1..], sep)) == Join(parts, sep);
    } else {
      JoinContains(parts[1..], sep, i - 1);
      ContainsPrefixed(parts[0] + sep, Join(parts[1..], sep), parts[i]);
      assert (parts[0] + sep) + Join(parts[1..], sep) == Join(parts, sep);
    }
  }

  /** Joining two non-empty lists of parts puts one separator between their joins. */
  lemma {:induction false} JoinAppend(p: seq<string>, q: seq<string>, sep: string)
    requires |p| >= 1 && |q| >= 1
    ensures Join(p + q, sep) == Join(p, sep) + sep + Join(q, sep)
    decreases |p|
  {
    var pq := p + q;
    assert pq[0] == p[0] && pq[1..] == p[1..] + q;
    if |p| == 1 {
      assert pq[1..] == q;
    } else {
      JoinAppend(p[1..], q, sep);
      assert Join(pq, sep) == p[0] + sep + (Join(p[1..], sep) + sep + Join(q, sep));
    }
  }

  /** The joined string starts with the first part. */
  lemma JoinStartsWith(parts: seq<string>, sep: string)
    requires |parts| >= 1
    ensures StartsWith(Join(parts, sep), parts[0])
  {
    if |parts| > 1 {
      assert Join(parts, sep) == parts[0] + (sep + Join(parts[1..], sep));
    }
  }
}
