/** The string operations the handlers use: ASCII case mapping,
    `String.prototype.includes`, `String(n)` for naturals and
    `String.prototype.padStart`. */
module Strings {

  predicate IsDigit(c: char)
  {
    '0' <= c <= '9'
  }

  predicate IsAsciiLower(c: char)
  {
    'a' <= c <= 'z'
  }

  predicate IsAsciiUpper(c: char)
  {
    'A' <= c <= 'Z'
  }

  /** The characters that the class `[a-z0-9]` matches under the `i` flag. */
  predicate IsAsciiAlnum(c: char)
  {
    IsAsciiLower(c) || IsAsciiUpper(c) || IsDigit(c)
  }

  /** `toLowerCase` on one character, restricted to ASCII. */
  function LowerChar(c: char): (d: char)
    ensures IsAsciiUpper(c) ==> IsAsciiLower(d) && d as int == c as int + 32
    ensures !IsAsciiUpper(c) ==> d == c
  {
    if IsAsciiUpper(c) then (c as int + 32) as char else c
  }

  /** `toLowerCase` on a string, character by character. */
  function Lower(s: string): (r: string)
    ensures |r| == |s|
  {
    if s == [] then [] else [LowerChar(s[0])] + Lower(s[1..])
  }

  lemma {:induction false} LowerAt(s: string, i: nat)
    requires i < |s|
    ensures Lower(s)[i] == LowerChar(s[i])
  {
    if i > 0 {
      LowerAt(s[1..], i - 1);
    }
  }

  lemma {:induction false} LowerNoUpper(s: string)
    requires forall k :: 0 <= k < |s| ==> !IsAsciiUpper(s[k])
    ensures Lower(s) == s
  {
    if s != [] {
      LowerNoUpper(s[1..]);
    }
  }

  /** Lower-casing is idempotent. */
  lemma {:induction false} LowerIdempotent(s: string)
    ensures Lower(Lower(s)) == Lower(s)
  {
    if s != [] {
      LowerIdempotent(s[1..]);
    }
  }

  /** `text.includes(pattern)`. */
  function Contains(text: string, pattern: string): bool
    decreases |text|
  {
    if |pattern| > |text| then false
    else text[..|pattern|] == pattern || Contains(text[1..], pattern)
  }

  /** `pattern` occurs in `text` starting at index `i`. */
  predicate OccursAt(text: string, pattern: string, i: int)
  {
    0 <= i <= |text| - |pattern| && text[i..i + |pattern|] == pattern
  }

  /** `Contains` finds exactly the occurrences of `pattern` in `text`. */
  lemma {:induction false} ContainsIff(text: string, pattern: string)
    ensures Contains(text, pattern) <==> exists i :: OccursAt(text, pattern, i)
    decreases |text|
  {
    if |pattern| <= |text| {
      if text[..|pattern|] == pattern {
        assert OccursAt(text, pattern, 0);
      } else {
        ContainsIff(text[1..], pattern);
        if Contains(text[1..], pattern) {
          var j :| OccursAt(text[1..], pattern, j);
          SliceOfTail(text, j + 1, j + 1 + |pattern|);
          assert OccursAt(text, pattern, j + 1);
        } else {
          forall i | 1 <= i
            ensures OccursAt(text, pattern, i) <==> OccursAt(text[1..], pattern, i - 1)
          {
            OccursAtTail(text, pattern, i);
          }
          assert !OccursAt(text, pattern, 0);
        }
      }
    }
  }

  /** An occurrence past the first character is an occurrence in the tail. */
  lemma OccursAtTail(text: string, pattern: string, i: int)
    requires 1 <= i && 1 <= |text|
    ensures OccursAt(text, pattern, i) <==> OccursAt(text[1..], pattern, i - 1)
  {
    if i <= |text| - |pattern| {
      SliceOfTail(text, i, i + |pattern|);
    }
  }

  /** A slice of the text without its first character. */
  lemma SliceOfTail(text: string, a: nat, b: nat)
    requires 1 <= a <= b <= |text|
    ensures text[1..][a - 1..b - 1] == text[a..b]
  {
  }

  /** A pattern whose first two characters are never adjacent in `text`
      does not occur in it. */
  lemma NotContainsByPair(text: string, pattern: string)
    requires |pattern| >= 2
    requires forall i :: 0 <= i < |text| - 1 ==> text[i] != pattern[0] || text[i + 1] != pattern[1]
    ensures !Contains(text, pattern)
  {
    ContainsIff(text, pattern);
  }

  function DigitChar(d: nat): (c: char)
    requires d < 10
    ensures IsDigit(c) && c as int - '0' as int == d
  {
    ('0' as int + d) as char
  }

  /** `String(n)`: the decimal digits of `n`, most significant first. */
  function NatToString(n: nat): string
  {
    if n < 10 then [DigitChar(n)] else NatToString(n / 10) + [DigitChar(n % 10)]
  }

  /** The rendering is a non-empty string of digits with no leading zero;
      it has one digit exactly below ten. */
  lemma {:induction false} NatToStringDigits(n: nat)
    ensures var s := NatToString(n);
      && |s| >= 1
      && (forall k :: 0 <= k < |s| ==> IsDigit(s[k]))
      && (n < 10 <==> |s| == 1)
      && (n >= 1 ==> s[0] != '0')
  {
    if n >= 10 {
      NatToStringDigits(n / 10);
      var s, t := NatToString(n), NatToString(n / 10);
      assert s == t + [DigitChar(n % 10)];
      assert s[0] == t[0];
    }
  }

  /** Different naturals have different decimal renderings. */
  lemma {:induction false} NatToStringInjective(n: nat, m: nat)
    requires NatToString(n) == NatToString(m)
    ensures n == m
    decreases n
  {
    var s := NatToString(n);
    NatToStringDigits(n);
    NatToStringDigits(m);
    if n >= 10 && m >= 10 {
      assert NatToString(n / 10) == s[..|s| - 1] == NatToString(m / 10);
      NatToStringInjective(n / 10, m / 10);
      assert DigitChar(n % 10) == s[|s| - 1] == DigitChar(m % 10);
    }
  }

  /** `s.padStart(width, fill)` for a one-character fill string. */
  function PadStart(s: string, width: nat, fill: char): string
    decreases width - |s|
  {
    if |s| >= width then s else PadStart([fill] + s, width, fill)
  }

  /** Padding reaches the width, keeps `s` at the end and fills the front. */
  lemma {:induction false} PadStartShape(s: string, width: nat, fill: char)
    ensures var r := PadStart(s, width, fill);
      && |r| == (if |s| >= width then |s| else width)
      && r[|r| - |s|..] == s
      && forall k :: 0 <= k < |r| - |s| ==> r[k] == fill
    decreases width - |s|
  {
    if |s| < width {
      PadStartShape([fill] + s, width, fill);
      var r := PadStart(s, width, fill);
      assert r == PadStart([fill] + s, width, fill);
      assert r[|r| - |s|..] == ([fill] + s)[1..];
    }
  }

  /** Strict lexicographic order on strings (what a sorted listing uses). */
  predicate LexLess(a: string, b: string)
    decreases |a|
  {
    if a == [] then b != []
    else b != [] && (a[0] < b[0] || (a[0] == b[0] && LexLess(a[1..], b[1..])))
  }

  /** Two strings ordered by their first two characters are ordered. */
  lemma LexLessByPrefix(a: string, b: string)
    requires |a| >= 2 && |b| >= 2
    requires a[0] < b[0] || (a[0] == b[0] && a[1] < b[1])
    ensures LexLess(a, b)
  {
    if a[0] == b[0] {
      assert a[1..][0] < b[1..][0];
    }
  }

  /** An occurrence at a known index makes `Contains` true. */
  lemma ContainsAt(text: string, pattern: string, i: nat)
    requires OccursAt(text, pattern, i)
    ensures Contains(text, pattern)
  {
    ContainsIff(text, pattern);
  }
}
