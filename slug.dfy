/** The two ways a tenant's URL slug is derived from the clinic name:
    `generateSlug` (defined identically in app/api/signup/route.ts and
    actions/signup.ts) and the inline expression of app/api/register/route.ts,
    which ends in a base-36 timestamp. */
module Slug {
  import opened Base
  import opened Text
  import Nfd

  predicate IsLowerAlnum(c: char) {
    ('a' <= c <= 'z') || ('0' <= c <= '9')
  }

  /** The class `[^a-z0-9]`. */
  predicate NotLowerAlnum(c: char) {
    !IsLowerAlnum(c)
  }

  /** The class `[a-z0-9-]`. */
  predicate IsSlugChar(c: char) {
    IsLowerAlnum(c) || c == '-'
  }

  predicate NotMark(c: char) {
    !Nfd.IsMark(c)
  }

  /** Every character is in `[a-z0-9-]`. */
  predicate InSlugAlphabet(s: string) {
    forall i :: 0 <= i < |s| ==> IsSlugChar(s[i])
  }

  predicate NoDoubleDash(s: string) {
    forall i :: 0 <= i < |s| - 1 ==> !(s[i] == '-' && s[i + 1] == '-')
  }

  predicate NoEdgeDash(s: string) {
    s == [] || (s[0] != '-' && s[|s| - 1] != '-')
  }

  // ---------------------------------------------------------------------
  // generateSlug

  /** `.replace(/(^-|-$)/g, "")`: one leading and one trailing "-" go. */
  function TrimDash(s: string): (r: string) {
    var t := if s != [] && s[0] == '-' then s[1..] else s;
    if t != [] && t[|t| - 1] == '-' then t[..|t| - 1] else t
  }

  /** Trimming a string without "--" leaves a slice of it with no dash at
      either end. */
  lemma TrimDashProperties(s: string)
    requires NoDoubleDash(s)
    ensures var r := TrimDash(s);
      && NoEdgeDash(r) && NoDoubleDash(r)
      && (forall i :: 0 <= i < |r| ==> r[i] in s)
  {
    var t := if s != [] && s[0] == '-' then s[1..] else s;
    if s != [] && s[0] == '-' {
      DropFirst(s);
    }
    var r := TrimDash(s);
    if t != [] && t[|t| - 1] == '-' {
      DropLast(t);
      assert r == t[..|t| - 1];
      assert r != [] ==> r[0] == t[0];
    }
  }

  /** Dropping the first character of a string without "--". */
  lemma DropFirst(s: string)
    requires s != [] && NoDoubleDash(s)
    ensures var t := s[1..];
      && NoDoubleDash(t)
      && (forall i :: 0 <= i < |t| ==> t[i] in s)
      && (s[0] == '-' && t != [] ==> t[0] != '-')
  {
    var t := s[1..];
    forall i | 0 <= i < |t| - 1 ensures !(t[i] == '-' && t[i + 1] == '-') {
      assert t[i] == s[i + 1] && t[i + 1] == s[i + 2];
    }
    forall i | 0 <= i < |t| ensures t[i] in s {
      assert t[i] == s[i + 1];
    }
    if t != [] {
      assert t[0] == s[1];
    }
  }

  /** Dropping the last character of a string without "--". */
  lemma DropLast(t: string)
    requires t != [] && NoDoubleDash(t)
    ensures var r := t[..|t| - 1];
      && NoDoubleDash(r)
      && (forall i :: 0 <= i < |r| ==> r[i] in t)
      && (t[|t| - 1] == '-' && r != [] ==> r[|r| - 1] != '-')
  {
    var r := t[..|t| - 1];
    forall i | 0 <= i < |r| - 1 ensures !(r[i] == '-' && r[i + 1] == '-') {
      assert r[i] == t[i] && r[i + 1] == t[i + 1];
    }
    forall i | 0 <= i < |r| ensures r[i] in t {
      assert r[i] == t[i];
    }
    if r != [] {
      assert r[|r| - 1] == t[|t| - 2];
    }
  }

  /** The first three steps of `generateSlug`: lower case, canonical
      decomposition, and deletion of the combining marks U+0300..U+036F. */
  function Plain(name: string): (r: string) {
    Filter(Nfd.Normalize(LowerStr(name)), NotMark)
  }

  lemma PlainConcat(a: string, b: string)
    ensures Plain(a + b) == Plain(a) + Plain(b)
  {
    LowerStrConcat(a, b);
    Nfd.NormalizeConcat(LowerStr(a), LowerStr(b));
    FilterConcat(Nfd.Normalize(LowerStr(a)), Nfd.Normalize(LowerStr(b)), NotMark);
  }

  /** On ASCII the first three steps only lower the case. */
  lemma PlainAscii(s: string)
    requires forall i :: 0 <= i < |s| ==> s[i] as int < 0x80
    ensures Plain(s) == LowerStr(s)
  {
    var l := LowerStr(s);
    assert forall i :: 0 <= i < |l| ==> l[i] as int < 0x80 && NotMark(l[i]);
    Nfd.NormalizeFixesLow(l);
    FilterKeepsAll(l, NotMark);
  }

  /** An accented Latin-1 letter keeps only its lower-case base letter. */
  lemma PlainAccented(c: char)
    requires |Nfd.Decompose(Lower(c))| == 2
    ensures Plain([c]) == [Nfd.Decompose(Lower(c))[0]]
  {
    var d := Nfd.Decompose(Lower(c));
    assert LowerStr([c]) == [Lower(c)];
    assert Nfd.Normalize([Lower(c)]) == d + Nfd.Normalize([]);
    assert Nfd.Normalize([Lower(c)]) == [d[0]] + [d[1]];
    FilterConcat([d[0]], [d[1]], NotMark);
    assert Filter([d[1]], NotMark) == Filter([], NotMark) == [];
    assert NotMark(d[0]);
    assert Filter([d[0]], NotMark) == [d[0]] + Filter([], NotMark);
    assert Plain([c]) == Filter([d[0]] + [d[1]], NotMark);
  }

  /** `generateSlug`: after the first three steps every run outside
      `[a-z0-9]` becomes one "-", then a dash at either end is dropped. The
      result is in `[a-z0-9-]`, has no dash at either end and no two dashes
      in a row. */
  function GenerateSlug(name: string): (r: string)
    ensures InSlugAlphabet(r)
    ensures NoEdgeDash(r)
    ensures NoDoubleDash(r)
  {
    var plain := Plain(name);
    var dashed := ReplaceRuns(plain, NotLowerAlnum);
    ReplaceRunsAlphabet(plain, NotLowerAlnum);
    ReplaceRunsNoDoubleDash(plain, NotLowerAlnum);
    TrimDashProperties(dashed);
    TrimDash(dashed)
  }

  /** A slug is its own slug. */
  lemma SlugIdempotent(name: string)
    ensures GenerateSlug(GenerateSlug(name)) == GenerateSlug(name)
  {
    SlugFixed(GenerateSlug(name));
  }

  /** A string in `[a-z0-9-]` without edge dashes or "--" is its own slug. */
  lemma SlugFixed(s: string)
    requires InSlugAlphabet(s) && NoEdgeDash(s) && NoDoubleDash(s)
    ensures GenerateSlug(s) == s
  {
    PlainFixed(s);
    DashedFixed(s);
    assert GenerateSlug(s) == TrimDash(ReplaceRuns(Plain(s), NotLowerAlnum));
  }

  lemma DashedFixed(s: string)
    requires InSlugAlphabet(s) && NoDoubleDash(s)
    ensures ReplaceRuns(s, NotLowerAlnum) == s
  {
    ReplaceRunsFixed(s, NotLowerAlnum);
  }

  /** Lower case, decomposition and mark removal leave `[a-z0-9-]` alone. */
  lemma PlainFixed(s: string)
    requires InSlugAlphabet(s)
    ensures Plain(s) == s
  {
    assert forall i :: 0 <= i < |s| ==> !IsUpper(s[i]) && s[i] as int < 0xC0 && NotMark(s[i]);
    LowerStrFixes(s);
    Nfd.NormalizeFixesLow(s);
    FilterKeepsAll(s, NotMark);
  }

  /** "Clínica São José" gives "clinica-sao-jose": accents are stripped
      after decomposition and blanks become dashes. (The name is written as
      the concatenation of its ASCII parts and its three accented letters.) */
  lemma SlugOfAccentedName()
    ensures GenerateSlug(("Cl" + ['\U{ED}'] + "nica") + (" S" + ['\U{E3}'] + "o") + (" Jos" + ['\U{E9}'])) == "clinica-sao-jose"
  {
    PlainOfExample();
    DashedOfExample();
    assert TrimDash("clinica-sao-jose") == "clinica-sao-jose";
  }

  lemma PlainOfExample()
    ensures Plain(("Cl" + ['\U{ED}'] + "nica") + (" S" + ['\U{E3}'] + "o") + (" Jos" + ['\U{E9}'])) == "clinica" + " sao" + " jose"
  {
    var w1 := "Cl" + ['\U{ED}'] + "nica";
    var w2 := " S" + ['\U{E3}'] + "o";
    var w3 := " Jos" + ['\U{E9}'];
    PlainOfClinica();
    PlainOfSao();
    PlainOfJose();
    PlainConcat(w1, w2);
    PlainConcat(w1 + w2, w3);
  }

  lemma PlainOfClinica()
    ensures Plain("Cl" + ['\U{ED}'] + "nica") == "clinica"
  {
    PlainOfWord("Cl", '\U{ED}', "nica");
    assert LowerStr("Cl") == "cl" && LowerStr("nica") == "nica";
  }

  lemma PlainOfSao()
    ensures Plain(" S" + ['\U{E3}'] + "o") == " sao"
  {
    PlainOfWord(" S", '\U{E3}', "o");
    assert LowerStr(" S") == " s" && LowerStr("o") == "o";
  }

  lemma PlainOfJose()
    ensures Plain(" Jos" + ['\U{E9}']) == " jose"
  {
    PlainOfWord(" Jos", '\U{E9}', "");
    assert " Jos" + ['\U{E9}'] + "" == " Jos" + ['\U{E9}'];
    assert LowerStr(" Jos") == " jos" && LowerStr("") == "";
  }

  /** A word with one accented letter between two ASCII parts. */
  lemma PlainOfWord(before: string, c: char, after: string)
    requires forall i :: 0 <= i < |before| ==> before[i] as int < 0x80
    requires forall i :: 0 <= i < |after| ==> after[i] as int < 0x80
    requires |Nfd.Decompose(Lower(c))| == 2
    ensures Plain(before + [c] + after) == LowerStr(before) + [Nfd.Decompose(Lower(c))[0]] + LowerStr(after)
  {
    PlainAscii(before);
    PlainAscii(after);
    PlainAccented(c);
    PlainConcat(before, [c]);
    PlainConcat(before + [c], after);
  }

  lemma DashedOfExample()
    ensures ReplaceRuns("clinica" + " sao" + " jose", NotLowerAlnum) == "clinica-sao-jose"
  {
    DashedThreeWords("clinica", "sao", "jose");
    assert "clinica" + " sao" + " jose" == "clinica" + ([' '] + "sao") + ([' '] + "jose");
    assert "clinica" + "-sao" + "-jose" == "clinica-sao-jose";
  }

  /** Three words of lower-case letters joined by single blanks are joined
      by single dashes. */
  lemma DashedThreeWords(a: string, b: string, c: string)
    requires a != [] && b != [] && c != []
    requires forall i :: 0 <= i < |a| ==> 'a' <= a[i] <= 'z'
    requires forall i :: 0 <= i < |b| ==> 'a' <= b[i] <= 'z'
    requires forall i :: 0 <= i < |c| ==> 'a' <= c[i] <= 'z'
    ensures ReplaceRuns(a + ([' '] + b) + ([' '] + c), NotLowerAlnum) == a + ("-" + b) + ("-" + c)
  {
    var sb, sc := [' '] + b, [' '] + c;
    DashedWord(a);
    DashedBlankWord(b);
    DashedBlankWord(c);
    ReplaceRunsConcat(a, sb, NotLowerAlnum);
    var ab := a + sb;
    assert ab[|ab| - 1] == b[|b| - 1];
    ReplaceRunsConcat(ab, sc, NotLowerAlnum);
  }

  /** A word of lower-case letters is left alone by the dash step. */
  lemma DashedWord(w: string)
    requires forall i :: 0 <= i < |w| ==> 'a' <= w[i] <= 'z'
    ensures ReplaceRuns(w, NotLowerAlnum) == w
  {
    DashedFixed(w);
  }

  /** A blank before such a word becomes one dash. */
  lemma DashedBlankWord(w: string)
    requires w != [] && forall i :: 0 <= i < |w| ==> 'a' <= w[i] <= 'z'
    ensures ReplaceRuns([' '] + w, NotLowerAlnum) == "-" + w
  {
    var s := [' '] + w;
    assert s[1..] == w;
    assert SkipRun(w, NotLowerAlnum) == w;
    DashedWord(w);
  }

  // ---------------------------------------------------------------------
  // The register route's slug

  /** `clinicName.toLowerCase().replace(/\s+/g, "-").replace(/[^a-z0-9-]/g, "")`:
      characters outside `[a-z0-9-]` (accented letters included) are deleted,
      not transliterated, and runs of dashes are neither collapsed nor trimmed. */
  function RegisterPrefix(clinicName: string): (r: string)
    ensures InSlugAlphabet(r)
    ensures |r| <= |clinicName|
  {
    var dashed := ReplaceRuns(LowerStr(clinicName), IsJsSpace);
    ReplaceRunsShorter(LowerStr(clinicName), IsJsSpace);
    Filter(dashed, IsSlugChar)
  }

  /** The prefix, "-" and `Date.now().toString(36)`. The suffix reads back
      as the timestamp, so all characters are in `[a-z0-9-]` and two
      registrations at different instants get different slugs. */
  function RegisterSlug(clinicName: string, now: nat): (r: string)
    ensures InSlugAlphabet(r)
    ensures var p := RegisterPrefix(clinicName);
      && |r| >= |p| + 2 && r[..|p|] == p && r[|p|] == '-'
      && var suffix := r[|p| + 1..];
         && (forall i :: 0 <= i < |suffix| ==> IsDigitChar(suffix[i]))
         && FromRadix(suffix, 36) == now
  {
    var p := RegisterPrefix(clinicName);
    var suffix := ToRadix(now, 36);
    RadixRoundTrip(now, 36);
    var r := p + "-" + suffix;
    assert r[|p| + 1..] == suffix;
    r
  }

  lemma RegisterSlugInjective(clinicName: string, t1: nat, t2: nat)
    requires RegisterSlug(clinicName, t1) == RegisterSlug(clinicName, t2)
    ensures t1 == t2
  {
  }

  lemma RegisterPrefixSteps(clinicName: string)
    ensures RegisterPrefix(clinicName) == Filter(ReplaceRuns(LowerStr(clinicName), IsJsSpace), IsSlugChar)
  {
  }

  /** "í" is deleted, not transliterated: "Clínica" gives "clnica". */
  lemma RegisterPrefixDropsAccents()
    ensures RegisterPrefix("Cl" + ['\U{ED}'] + "nica") == "clnica"
  {
    RegisterPrefixSteps("Cl" + ['\U{ED}'] + "nica");
    ClinicaLower();
    ClinicaNoBlank();
    ClinicaFiltered();
  }

  lemma ClinicaLower()
    ensures LowerStr("Cl" + ['\U{ED}'] + "nica") == "cl" + ['\U{ED}'] + "nica"
  {
    LowerStrConcat("Cl", ['\U{ED}']);
    LowerStrConcat("Cl" + ['\U{ED}'], "nica");
    assert LowerStr("Cl") == "cl" && LowerStr("nica") == "nica";
  }

  lemma ClinicaNoBlank()
    ensures ReplaceRuns("cl" + ['\U{ED}'] + "nica", IsJsSpace) == "cl" + ['\U{ED}'] + "nica"
  {
    var s := "cl" + ['\U{ED}'] + "nica";
    forall i | 0 <= i < |s| ensures !IsJsSpace(s[i]) {
      assert 0x61 <= s[i] as int <= 0xED && s[i] as int != 0xA0;
    }
    ReplaceRunsFixed(s, IsJsSpace);
  }

  lemma ClinicaFiltered()
    ensures Filter("cl" + ['\U{ED}'] + "nica", IsSlugChar) == "clnica"
  {
    FilterConcat("cl", ['\U{ED}'], IsSlugChar);
    FilterConcat("cl" + ['\U{ED}'], "nica", IsSlugChar);
    FilterKeepsAll("cl", IsSlugChar);
    FilterKeepsAll("nica", IsSlugChar);
  }

  /** "A - B" gives "a---b", and a leading blank gives a leading dash. */
  lemma RegisterPrefixKeepsDashRuns()
    ensures RegisterPrefix("A - B") == "a---b"
    ensures RegisterPrefix(" X") == "-x"
  {
    RegisterPrefixSteps("A - B");
    RegisterPrefixSteps(" X");
    SpacedLower();
    SpacedDashed();
    SpacedFiltered();
    LeadingBlank();
  }

  lemma SpacedLower()
    ensures LowerStr("A - B") == "a - b"
  {
  }

  lemma SpacedDashed()
    ensures ReplaceRuns("a - b", IsJsSpace) == "a---b"
  {
  }

  lemma SpacedFiltered()
    ensures Filter("a---b", IsSlugChar) == "a---b"
  {
  }

  lemma LeadingBlank()
    ensures Filter(ReplaceRuns(LowerStr(" X"), IsJsSpace), IsSlugChar) == "-x"
  {
    assert LowerStr(" X") == " x";
    assert ReplaceRuns(" x", IsJsSpace) == "-x";
  }
}
