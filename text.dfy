/** String primitives of JavaScript that the handlers rely on, restricted to
    what can be stated exactly: `toLowerCase` on U+0000..U+00FF, `includes`,
    `Number.prototype.toString(radix)` for non-negative integers, the `\s`
    class of regular expressions, `length` in UTF-16 code units, and replacing maximal runs of a character
    class by a single "-". */
module Text {

  /** `toLowerCase` on one character: A-Z and the Latin-1 capitals
      U+00C0..U+00DE (except the multiplication sign U+00D7) move down by 0x20.
      Every other character is left unchanged. */
  function Lower(c: char): (r: char)
    ensures IsUpper(c) ==> r as int == c as int + 32
    ensures !IsUpper(c) ==> r == c
  {
    if IsUpper(c) then (c as int + 32) as char else c
  }

  predicate IsUpper(c: char) {
    ('A' <= c <= 'Z') || (0xC0 <= c as int <= 0xDE && c as int != 0xD7)
  }

  /** `String.prototype.length`: UTF-16 code units, so a character above
      U+FFFF, stored as a surrogate pair, counts twice. The count equals the
      number of characters exactly when none is above U+FFFF. */
  function Utf16Length(s: string): (r: nat)
    ensures |s| <= r <= 2 * |s|
    ensures r == |s| <==> forall i :: 0 <= i < |s| ==> s[i] as int <= 0xFFFF
    ensures r == 2 * |s| <==> forall i :: 0 <= i < |s| ==> s[i] as int > 0xFFFF
  {
    if s == [] then 0
    else
      assert forall i :: 0 < i < |s| ==> s[i] == s[1..][i - 1];
      (if s[0] as int > 0xFFFF then 2 else 1) + Utf16Length(s[1..])
  }

  /** `String.prototype.toLowerCase`. */
  function LowerStr(s: string): (r: string)
    ensures |r| == |s|
    ensures forall i :: 0 <= i < |s| ==> r[i] == Lower(s[i])
  {
    seq(|s|, i requires 0 <= i < |s| => Lower(s[i]))
  }

  lemma LowerIdempotent(c: char)
    ensures Lower(Lower(c)) == Lower(c)
  {
  }

  /** Lowercasing twice is lowercasing once. */
  lemma {:induction false} LowerStrIdempotent(s: string)
    ensures LowerStr(LowerStr(s)) == LowerStr(s)
  {
    forall i | 0 <= i < |s| ensures LowerStr(LowerStr(s))[i] == LowerStr(s)[i] {
      LowerIdempotent(s[i]);
    }
  }

  /** A string without capitals is its own lower case. */
  lemma LowerStrFixes(s: string)
    requires forall i :: 0 <= i < |s| ==> !IsUpper(s[i])
    ensures LowerStr(s) == s
  {
  }

  lemma LowerStrConcat(a: string, b: string)
    ensures LowerStr(a + b) == LowerStr(a) + LowerStr(b)
  {
  }

  /** `s.includes(sub)`. */
  predicate Contains(s: string, sub: string) {
    exists i :: 0 <= i <= |s| - |sub| && sub <= s[i..]
  }

  lemma ContainsEmpty(s: string)
    ensures Contains(s, "")
  {
    assert "" <= s[0..];
  }

  /** The characters that `\s` matches in a JavaScript regular expression:
      WhiteSpace and LineTerminator of ECMAScript. */
  predicate IsJsSpace(c: char) {
    var n := c as int;
    n == 0x09 || n == 0x0A || n == 0x0B || n == 0x0C || n == 0x0D || n == 0x20
    || n == 0xA0 || n == 0x1680 || (0x2000 <= n <= 0x200A) || n == 0x2028
    || n == 0x2029 || n == 0x202F || n == 0x205F || n == 0x3000 || n == 0xFEFF
  }

  // ---------------------------------------------------------------------
  // Replacing maximal runs: `s.replace(/[class]+/g, "-")`

  /** Drops the leading characters of `s` that belong to the class `p`. */
  function SkipRun(s: string, p: char -> bool): (r: string)
    ensures |r| <= |s|
    ensures r == [] || !p(r[0])
  {
    if s == [] || !p(s[0]) then s else SkipRun(s[1..], p)
  }

  /** Every maximal run of characters in class `p` becomes one "-"; all
      other characters are kept in order (the regex quantifier is greedy). */
  function ReplaceRuns(s: string, p: char -> bool): (r: string)
    decreases |s|
  {
    if s == [] then []
    else if p(s[0]) then "-" + ReplaceRuns(SkipRun(s[1..], p), p)
    else [s[0]] + ReplaceRuns(s[1..], p)
  }

  /** Replacing runs never lengthens a string. */
  lemma {:induction false} ReplaceRunsShorter(s: string, p: char -> bool)
    ensures |ReplaceRuns(s, p)| <= |s|
    decreases |s|
  {
    if s == [] {
    } else if p(s[0]) {
      ReplaceRunsShorter(SkipRun(s[1..], p), p);
    } else {
      ReplaceRunsShorter(s[1..], p);
    }
  }

  /** A run that ends inside `a` does not reach into what follows. */
  lemma {:induction false} SkipRunConcat(a: string, b: string, p: char -> bool)
    requires a != [] && !p(a[|a| - 1])
    ensures SkipRun(a + b, p) == SkipRun(a, p) + b
    ensures SkipRun(a, p) != []
    ensures SkipRun(a, p)[|SkipRun(a, p)| - 1] == a[|a| - 1]
    decreases |a|
  {
    assert (a + b)[0] == a[0];
    if p(a[0]) {
      assert |a| >= 2;
      assert (a + b)[1..] == a[1..] + b;
      SkipRunConcat(a[1..], b, p);
    }
  }

  /** Replacing runs distributes over a split just after a character
      outside the class. */
  lemma {:induction false} ReplaceRunsConcat(a: string, b: string, p: char -> bool)
    requires a != [] && !p(a[|a| - 1])
    ensures ReplaceRuns(a + b, p) == ReplaceRuns(a, p) + ReplaceRuns(b, p)
    decreases |a|
  {
    assert (a + b)[0] == a[0] && (a + b)[1..] == a[1..] + b;
    if p(a[0]) {
      assert |a| >= 2;
      SkipRunConcat(a[1..], b, p);
      var t := SkipRun(a[1..], p);
      ReplaceRunsConcat(t, b, p);
    } else if |a| > 1 {
      ReplaceRunsConcat(a[1..], b, p);
    }
  }

  /** Every character of the result is "-" or a character outside the class. */
  lemma {:induction false} ReplaceRunsAlphabet(s: string, p: char -> bool)
    ensures forall i :: 0 <= i < |ReplaceRuns(s, p)| ==>
      ReplaceRuns(s, p)[i] == '-' || !p(ReplaceRuns(s, p)[i])
    decreases |s|
  {
    if s == [] {
    } else if p(s[0]) {
      ReplaceRunsAlphabet(SkipRun(s[1..], p), p);
    } else {
      ReplaceRunsAlphabet(s[1..], p);
    }
  }

  /** A string that starts outside the class keeps its first character. */
  lemma {:induction false} ReplaceRunsHead(s: string, p: char -> bool)
    requires s != [] && !p(s[0])
    ensures ReplaceRuns(s, p) != [] && ReplaceRuns(s, p)[0] == s[0]
  {
  }

  /** When "-" itself is in the class, no two dashes are adjacent in the result. */
  lemma {:induction false} ReplaceRunsNoDoubleDash(s: string, p: char -> bool)
    requires p('-')
    ensures forall i :: 0 <= i < |ReplaceRuns(s, p)| - 1 ==>
      !(ReplaceRuns(s, p)[i] == '-' && ReplaceRuns(s, p)[i + 1] == '-')
    decreases |s|
  {
    if s == [] {
    } else if p(s[0]) {
      var t := SkipRun(s[1..], p);
      ReplaceRunsNoDoubleDash(t, p);
      if t != [] {
        ReplaceRunsHead(t, p);
      }
    } else {
      ReplaceRunsNoDoubleDash(s[1..], p);
    }
  }

  /** A string whose class characters are all single dashes is unchanged. */
  lemma {:induction false} ReplaceRunsFixed(s: string, p: char -> bool)
    requires forall i :: 0 <= i < |s| && p(s[i]) ==> s[i] == '-'
    requires forall i :: 0 <= i < |s| - 1 ==> !(p(s[i]) && p(s[i + 1]))
    ensures ReplaceRuns(s, p) == s
    decreases |s|
  {
    if s == [] {
    } else if p(s[0]) {
      assert SkipRun(s[1..], p) == s[1..];
      ReplaceRunsFixed(s[1..], p);
    } else {
      ReplaceRunsFixed(s[1..], p);
    }
  }

  // ---------------------------------------------------------------------
  // `Number.prototype.toString(radix)` for non-negative integers

  /** The digit characters 0-9 then a-z. */
  function DigitChar(d: nat): (c: char)
    requires d < 36
    ensures IsDigitChar(c)
  {
    if d < 10 then (48 + d) as char else (97 + d - 10) as char
  }

  predicate IsDigitChar(c: char) {
    ('0' <= c <= '9') || ('a' <= c <= 'z')
  }

  function DigitValue(c: char): (d: nat)
    requires IsDigitChar(c)
    ensures d < 36
  {
    if c <= '9' then c as int - 48 else c as int - 97 + 10
  }

  /** `n.toString(radix)`: most significant digit first, no leading zero. */
  function ToRadix(n: nat, radix: nat): (r: string)
    requires 2 <= radix <= 36
    ensures |r| >= 1
    ensures forall i :: 0 <= i < |r| ==> IsDigitChar(r[i]) && DigitValue(r[i]) < radix
    ensures n > 0 ==> r[0] != '0'
    decreases n
  {
    if n < radix then [DigitChar(n)]
    else
      DivModFacts(n, radix);
      ToRadix(n / radix, radix) + [DigitChar(n % radix)]
  }

  lemma DivModFacts(n: nat, radix: nat)
    requires 2 <= radix <= n
    ensures 1 <= n / radix < n
    ensures n == (n / radix) * radix + n % radix && n % radix < radix
  {
  }

  /** Reads the digits back (what `parseInt(s, radix)` does on such a string). */
  function FromRadix(s: string, radix: nat): (r: nat)
    requires 2 <= radix <= 36
    requires forall i :: 0 <= i < |s| ==> IsDigitChar(s[i])
  {
    if s == [] then 0
    else FromRadix(s[..|s| - 1], radix) * radix + DigitValue(s[|s| - 1])
  }

  lemma DigitRoundTrip(d: nat)
    requires d < 36
    ensures DigitValue(DigitChar(d)) == d
  {
  }

  /** Rendering then reading gives the number back, so distinct numbers have
      distinct renderings. */
  lemma {:induction false} RadixRoundTrip(n: nat, radix: nat)
    requires 2 <= radix <= 36
    ensures FromRadix(ToRadix(n, radix), radix) == n
    decreases n
  {
    if n >= radix {
      var front := ToRadix(n / radix, radix);
      var s := front + [DigitChar(n % radix)];
      assert s[..|s| - 1] == front;
      DivModFacts(n, radix);
      RadixRoundTrip(n / radix, radix);
      DigitRoundTrip(n % radix);
    } else {
      var s := [DigitChar(n)];
      assert s[..0] == [];
      DigitRoundTrip(n);
    }
  }

  lemma RadixInjective(m: nat, n: nat, radix: nat)
    requires 2 <= radix <= 36
    requires ToRadix(m, radix) == ToRadix(n, radix)
    ensures m == n
  {
    RadixRoundTrip(m, radix);
    RadixRoundTrip(n, radix);
  }

  /** Template-literal rendering of a non-negative integer, `${n}`. */
  function Decimal(n: nat): (r: string)
    ensures |r| >= 1 && forall i :: 0 <= i < |r| ==> '0' <= r[i] <= '9'
  {
    var r := ToRadix(n, 10);
    assert forall i :: 0 <= i < |r| ==> DigitValue(r[i]) < 10 && IsDigitChar(r[i]);
    r
  }

  lemma DecimalInjective(m: nat, n: nat)
    requires Decimal(m) == Decimal(n)
    ensures m == n
  {
    RadixInjective(m, n, 10);
  }

  /** Two strings between the same prefix and suffix are equal when the
      results are. */
  lemma CancelAround(pre: string, a: string, b: string, post: string)
    requires pre + a + post == pre + b + post
    ensures a == b
  {
    var l := pre + a + post;
    assert |a| == |b|;
    assert a == l[|pre|..|pre| + |a|];
    assert b == (pre + b + post)[|pre|..|pre| + |b|];
  }
}
