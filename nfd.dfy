/** `String.prototype.normalize("NFD")` restricted to U+0000..U+00FF: the
    precomposed Latin-1 letters split into a base letter followed by one
    combining mark; every other character is its own decomposition. */
module Nfd {

  /** The combining diacritical marks block, U+0300..U+036F. */
  predicate IsMark(c: char) {
    0x300 <= c as int <= 0x36F
  }

  /** The mark of the k-th vowel in the order grave, acute, circumflex,
      tilde, diaeresis, ring above (the order of U+00E0..U+00E5). */
  function VowelMark(k: int): (m: int)
    ensures IsMarkCode(m)
  {
    if k == 0 then 0x300 else if k == 1 then 0x301 else if k == 2 then 0x302
    else if k == 3 then 0x303 else if k == 4 then 0x308 else 0x30A
  }

  /** The mark of the k-th letter of the rows e, i and u: grave, acute,
      circumflex, diaeresis. */
  function FourMark(k: int): (m: int)
    ensures IsMarkCode(m)
  {
    VowelMark(if k == 3 then 4 else k)
  }

  predicate IsMarkCode(m: int) {
    0x300 <= m <= 0x36F
  }

  /** Base letter and mark of the lower-case letter with code `n` in
      U+00E0..U+00FF; the base is ' ' for æ ð ÷ ø þ, which do not decompose. */
  function SplitLower(n: int): (r: (char, int))
    ensures r.0 == ' ' || (('a' <= r.0 <= 'z') && IsMarkCode(r.1))
  {
    if 0xE0 <= n <= 0xE5 then ('a', VowelMark(n - 0xE0))
    else if n == 0xE7 then ('c', 0x327)
    else if 0xE8 <= n <= 0xEB then ('e', FourMark(n - 0xE8))
    else if 0xEC <= n <= 0xEF then ('i', FourMark(n - 0xEC))
    else if n == 0xF1 then ('n', 0x303)
    else if 0xF2 <= n <= 0xF6 then ('o', VowelMark(n - 0xF2))
    else if 0xF9 <= n <= 0xFC then ('u', FourMark(n - 0xF9))
    else if n == 0xFD then ('y', 0x301)
    else if n == 0xFF then ('y', 0x308)
    else (' ', 0)
  }

  predicate IsAsciiLetter(c: char) {
    ('a' <= c <= 'z') || ('A' <= c <= 'Z')
  }

  /** The canonical decomposition of one character: a capital in
      U+00C0..U+00DE decomposes like its small letter, with a capital base. */
  function Decompose(c: char): (r: string)
    ensures |r| == 1 || |r| == 2
    ensures |r| == 1 ==> r[0] == c
    ensures |r| == 2 ==> IsAsciiLetter(r[0]) && IsMark(r[1]) && 0xC0 <= c as int <= 0xFF
  {
    var n := c as int;
    if 0xE0 <= n <= 0xFF && SplitLower(n).0 != ' ' then
      [SplitLower(n).0, SplitLower(n).1 as char]
    else if 0xC0 <= n <= 0xDE && SplitLower(n + 0x20).0 != ' ' then
      [(SplitLower(n + 0x20).0 as int - 32) as char, SplitLower(n + 0x20).1 as char]
    else [c]
  }

  /** `s.normalize("NFD")`. */
  function Normalize(s: string): (r: string)
    ensures |r| >= |s|
  {
    if s == [] then [] else Decompose(s[0]) + Normalize(s[1..])
  }

  /** Characters below U+00C0 (in particular all of ASCII) are left alone. */
  lemma {:induction false} NormalizeFixesLow(s: string)
    requires forall i :: 0 <= i < |s| ==> s[i] as int < 0xC0
    ensures Normalize(s) == s
  {
    if s != [] {
      NormalizeFixesLow(s[1..]);
    }
  }

  lemma {:induction false} NormalizeConcat(a: string, b: string)
    ensures Normalize(a + b) == Normalize(a) + Normalize(b)
  {
    if a != [] {
      assert (a + b)[0] == a[0] && (a + b)[1..] == a[1..] + b;
      NormalizeConcat(a[1..], b);
    } else {
      assert a + b == b;
    }
  }
}
