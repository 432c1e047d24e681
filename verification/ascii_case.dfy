/** A model of Swift's `String.uppercased()` and Foundation's
    `String.capitalized` in which only the letters `a`-`z` and `A`-`Z`
    change case. `capitalized` lower-cases every character whose nearest
    earlier character that is not case-ignorable is cased, and title-cases
    every other character: `"saint-denis"` becomes `"Saint-Denis"`, `"1st"`
    becomes `"1St"`, `"don't"` becomes `"Don't"` and `"münchen"` becomes
    `"München"`. Which characters beyond ASCII are cased or case-ignorable
    (Unicode's Cased and Case_Ignorable properties) is a parameter. */
module AsciiCase {

  predicate IsLower(c: char) {
    'a' <= c <= 'z'
  }

  predicate IsUpper(c: char) {
    'A' <= c <= 'Z'
  }

  predicate IsLetter(c: char) {
    IsLower(c) || IsUpper(c)
  }

  /** The ASCII members of Unicode's Case_Ignorable property. */
  predicate IsCaseIgnorable(c: char) {
    c == '\'' || c == '.' || c == ':' || c == '^' || c == '`'
  }

  function UpperChar(c: char): (r: char)
    ensures !IsLower(r)
    ensures IsLower(c) ==> IsUpper(r) && r as int == c as int - 32
    ensures !IsLower(c) ==> r == c
  {
    if IsLower(c) then (c as int - 32) as char else c
  }

  function LowerChar(c: char): (r: char)
    ensures !IsUpper(r)
    ensures IsUpper(c) ==> IsLower(r) && r as int == c as int + 32
    ensures !IsUpper(c) ==> r == c
  {
    if IsUpper(c) then (c as int + 32) as char else c
  }

  /** Two strings that differ at most in the case of their letters. */
  predicate EqualIgnoringCase(a: string, b: string) {
    |a| == |b| && forall i {:trigger a[i], b[i]} | 0 <= i < |a| :: LowerChar(a[i]) == LowerChar(b[i])
  }

  predicate NoLowercase(s: string) {
    forall i | 0 <= i < |s| :: !IsLower(s[i])
  }

  /** `uppercased()`: every lowercase letter replaced by its capital. */
  function Uppercase(s: string): (r: string)
    ensures |r| == |s|
    ensures forall i {:trigger r[i]} | 0 <= i < |s| :: r[i] == UpperChar(s[i])
  {
    if |s| == 0 then [] else [UpperChar(s[0])] + Uppercase(s[1..])
  }

  /** How `capitalized` treats a character: a cased character continues a
      word, a case-ignorable one is looked through, any other ends the word. */
  datatype CaseClass = Cased | Ignorable | Uncased

  /** The class of `c`: fixed for ASCII, where the cased characters are the
      letters, and read from `unicode` for every other character. */
  function ClassOf(c: char, unicode: char -> CaseClass): CaseClass {
    if c as int < 128 then
      if IsLetter(c) then Cased else if IsCaseIgnorable(c) then Ignorable else Uncased
    else unicode(c)
  }

  /** Whether the text read so far ends in a cased character, once a
      character of class `k` is read after text for which that was `cased`. */
  function NextCased(cased: bool, k: CaseClass): bool {
    match k
    case Cased => true
    case Ignorable => cased
    case Uncased => false
  }

  /** Whether the nearest character before position `i` of `s` that is not
      case-ignorable is cased; `cased` answers this for position 0. */
  function CasedAt(s: string, i: nat, cased: bool, unicode: char -> CaseClass): bool
    requires i <= |s|
  {
    if i == 0 then cased else NextCased(CasedAt(s, i - 1, cased, unicode), ClassOf(s[i - 1], unicode))
  }

  /** Reading the first character and then the rest is reading the whole. */
  lemma {:induction false} CasedAtTail(s: string, i: nat, cased: bool, unicode: char -> CaseClass)
    requires 1 <= i <= |s|
    ensures CasedAt(s[1..], i - 1, NextCased(cased, ClassOf(s[0], unicode)), unicode) == CasedAt(s, i, cased, unicode)
    decreases i
  {
    if i > 1 {
      CasedAtTail(s, i - 1, cased, unicode);
      assert s[1..][i - 2] == s[i - 1];
    }
  }

  /** Capitalizes `s` left to right, where `cased` tells whether `s` follows
      a cased character. */
  function CapitalizeFrom(s: string, cased: bool, unicode: char -> CaseClass): (r: string)
    ensures |r| == |s|
  {
    if |s| == 0 then []
    else
      var head := if cased then LowerChar(s[0]) else UpperChar(s[0]);
      [head] + CapitalizeFrom(s[1..], NextCased(cased, ClassOf(s[0], unicode)), unicode)
  }

  /** Each character of `CapitalizeFrom(s, cased, unicode)` is decided by
      whether a cased character precedes it, looking through case-ignorable
      characters. */
  lemma {:induction false} CapitalizeFromAt(s: string, cased: bool, unicode: char -> CaseClass)
    ensures forall i | 0 <= i < |s| ::
      CapitalizeFrom(s, cased, unicode)[i]
        == (if CasedAt(s, i, cased, unicode) then LowerChar(s[i]) else UpperChar(s[i]))
    decreases |s|
  {
    if |s| > 0 {
      var next := NextCased(cased, ClassOf(s[0], unicode));
      var rest := CapitalizeFrom(s[1..], next, unicode);
      var r := CapitalizeFrom(s, cased, unicode);
      CapitalizeFromAt(s[1..], next, unicode);
      forall i | 1 <= i < |s|
        ensures r[i] == (if CasedAt(s, i, cased, unicode) then LowerChar(s[i]) else UpperChar(s[i]))
      {
        CasedAtTail(s, i, cased, unicode);
        assert r[i] == rest[i - 1];
        assert s[1..][i - 1] == s[i];
      }
    }
  }

  /** `capitalized`: a character after a cased character (looking through
      case-ignorable characters) is lower-cased; every other character is
      upper-cased. */
  function Capitalize(s: string, unicode: char -> CaseClass): (r: string)
    ensures |r| == |s|
    ensures forall i {:trigger r[i]} | 0 <= i < |s| ::
      r[i] == (if CasedAt(s, i, false, unicode) then LowerChar(s[i]) else UpperChar(s[i]))
  {
    CapitalizeFromAt(s, false, unicode);
    CapitalizeFrom(s, false, unicode)
  }

  /** A character that is neither cased nor case-ignorable (a space, a
      hyphen, a digit) ends a word: what follows is capitalized on its own. */
  lemma {:induction false} CapitalizeSplits(a: string, c: char, b: string, cased: bool, unicode: char -> CaseClass)
    requires ClassOf(c, unicode) == Uncased
    ensures CapitalizeFrom(a + [c] + b, cased, unicode)
      == CapitalizeFrom(a, cased, unicode) + [c] + CapitalizeFrom(b, false, unicode)
    decreases |a|
  {
    var s := a + [c] + b;
    if |a| == 0 {
      assert s == [c] + b;
      assert s[1..] == b;
      assert CapitalizeFrom(s, cased, unicode) == [c] + CapitalizeFrom(b, false, unicode);
    } else {
      var next := NextCased(cased, ClassOf(a[0], unicode));
      var head := if cased then LowerChar(a[0]) else UpperChar(a[0]);
      assert s[0] == a[0];
      assert s[1..] == a[1..] + [c] + b;
      assert CapitalizeFrom(s, cased, unicode) == [head] + CapitalizeFrom(s[1..], next, unicode);
      assert CapitalizeFrom(a, cased, unicode) == [head] + CapitalizeFrom(a[1..], next, unicode);
      CapitalizeSplits(a[1..], c, b, next, unicode);
    }
  }

  /** Inside a word that starts with a cased character and goes on with
      cased or case-ignorable ones, every position after the first follows
      a cased character. */
  lemma {:induction false} CasedThroughWord(w: string, i: nat, unicode: char -> CaseClass)
    requires 1 <= i <= |w|
    requires ClassOf(w[0], unicode) == Cased
    requires forall j | 1 <= j < |w| :: ClassOf(w[j], unicode) != Uncased
    ensures CasedAt(w, i, false, unicode)
    decreases i
  {
    if i > 1 {
      CasedThroughWord(w, i - 1, unicode);
      assert ClassOf(w[i - 1], unicode) != Uncased;
    }
  }

  /** A word that starts with a cased character, goes on with cased or
      case-ignorable characters and has no capital after its first
      character is capitalized by upper-casing that first character. */
  lemma CapitalizeWord(w: string, unicode: char -> CaseClass)
    requires 1 <= |w|
    requires ClassOf(w[0], unicode) == Cased
    requires forall i | 1 <= i < |w| :: ClassOf(w[i], unicode) != Uncased && !IsUpper(w[i])
    ensures Capitalize(w, unicode) == [UpperChar(w[0])] + w[1..]
  {
    var r := Capitalize(w, unicode);
    forall i | 1 <= i < |w|
      ensures r[i] == w[i]
    {
      CasedThroughWord(w, i, unicode);
    }
    assert r[0] == UpperChar(w[0]);
  }

  /** A hyphen starts a new word. */
  lemma CapitalizeHyphenated(unicode: char -> CaseClass)
    ensures Capitalize("saint-denis", unicode) == "Saint-Denis"
  {
    assert "saint-denis" == "saint" + ['-'] + "denis";
    CapitalizeSplits("saint", '-', "denis", false, unicode);
    assert CapitalizeFrom("saint", false, unicode) == "Saint";
    assert CapitalizeFrom("denis", false, unicode) == "Denis";
    assert "Saint-Denis" == "Saint" + ['-'] + "Denis";
  }

  /** A digit starts a new word. */
  lemma CapitalizeAfterDigit(unicode: char -> CaseClass)
    ensures Capitalize("1st", unicode) == "1St"
  {
  }

  /** An apostrophe does not start a new word. */
  lemma CapitalizeAfterApostrophe(unicode: char -> CaseClass)
    ensures Capitalize("don't", unicode) == "Don't"
  {
    CapitalizeWord("don't", unicode);
  }

  /** A cased letter beyond ASCII continues the word, so the letter after
      it is lower-cased. */
  lemma CapitalizeAfterCasedNonAscii(unicode: char -> CaseClass)
    requires unicode('ü') == Cased
    ensures Capitalize("münchen", unicode) == "München"
  {
    CapitalizeWord("münchen", unicode);
  }

  /** A case-ignorable character beyond ASCII, such as the right single
      quotation mark, is looked through like the apostrophe. */
  lemma CapitalizeAfterIgnorableNonAscii(unicode: char -> CaseClass)
    requires unicode('’') == Ignorable
    ensures Capitalize("n’djamena", unicode) == "N’djamena"
  {
    CapitalizeWord("n’djamena", unicode);
  }

  /** A string without lowercase letters is its own upper case. */
  lemma UppercaseUnchanged(s: string)
    requires NoLowercase(s)
    ensures Uppercase(s) == s
  {
  }

  /** Capitalizing only changes the case of letters. */
  lemma CapitalizeIgnoresCase(s: string, unicode: char -> CaseClass)
    ensures EqualIgnoringCase(Capitalize(s, unicode), s)
  {
  }

  /** Upper-casing only changes the case of letters and leaves no lowercase letter. */
  lemma UppercaseIgnoresCase(s: string)
    ensures EqualIgnoringCase(Uppercase(s), s)
    ensures NoLowercase(Uppercase(s))
  {
  }
}
