/** Strings as the program reads them: folding of ASCII letters, substrings, prefixes, lines. */
module Text {
  function LowerChar(c: char): char {
    if 'A' <= c <= 'Z' then c - 'A' + 'a' else c
  }

  predicate Letter(c: char) {
    'a' <= c <= 'z' || 'A' <= c <= 'Z'
  }

  predicate Digit(c: char) {
    '0' <= c <= '9'
  }

  const CAPITALS := "ABCDEFGHIJKLMNOPQRSTUVWXYZ"
  const SMALLS := "abcdefghijklmnopqrstuvwxyz"

  lemma CapitalMeans(c: char)
    ensures 'A' <= c <= 'Z' <==> c in CAPITALS
    ensures 'A' <= c <= 'Z' ==> CAPITALS[c as int - 'A' as int] == c
  {
  }

  lemma SmallMeans(c: char)
    ensures 'a' <= c <= 'z' <==> c in SMALLS
    ensures 'a' <= c <= 'z' ==> SMALLS[c as int - 'a' as int] == c
  {
  }

  /** The letters, and what folding makes of them. */
  lemma LettersMean(c: char)
    ensures Letter(c) <==> c in CAPITALS || c in SMALLS
    ensures forall k :: 0 <= k < 26 && c == CAPITALS[k] ==> LowerChar(c) == SMALLS[k]
    ensures c !in CAPITALS ==> LowerChar(c) == c
  {
    CapitalMeans(c);
    SmallMeans(c);
    SmallMeans(LowerChar(c));
  }

  lemma DigitMeans(c: char)
    ensures Digit(c) <==> c in "0123456789"
  {
    assert '0' <= c <= '9' ==> "0123456789"[c as int - '0' as int] == c;
  }

  /** `casefold()` on ASCII text. */
  function Fold(s: string): (r: string)
    ensures |r| == |s|
  {
    if s == "" then "" else [LowerChar(s[0])] + Fold(s[1..])
  }

  lemma {:induction false} FoldAt(s: string, k: nat)
    requires k < |s|
    ensures Fold(s)[k] == LowerChar(s[k])
  {
    if k > 0 {
      FoldAt(s[1..], k - 1);
    }
  }

  predicate StartsWith(s: string, prefix: string) {
    prefix <= s
  }

  /** `part in s`. */
  predicate Contains(s: string, part: string) {
    part <= s || (s != "" && Contains(s[1..], part))
  }

  predicate OccursAt(s: string, part: string, i: nat) {
    i + |part| <= |s| && s[i..i + |part|] == part
  }

  /** A part is in a text exactly if it stands at some place of it. */
  lemma {:induction false} ContainsMeans(s: string, part: string)
    ensures Contains(s, part) <==> exists i: nat :: OccursAt(s, part, i)
  {
    if part <= s {
      assert OccursAt(s, part, 0);
    } else if s != "" {
      ContainsMeans(s[1..], part);
      if i: nat :| OccursAt(s[1..], part, i) {
        assert s[1..][i..i + |part|] == s[i + 1..i + 1 + |part|];
        assert OccursAt(s, part, i + 1);
      }
      if i: nat :| OccursAt(s, part, i) {
        assert i > 0;
        assert s[1..][i - 1..i - 1 + |part|] == s[i..i + |part|];
        assert OccursAt(s[1..], part, i - 1);
      }
    }
  }

  /** Some stretch of the text folds to the phrase. */
  predicate Says(text: string, phrase: string) {
    exists i: nat :: i + |phrase| <= |text| && SaysAt(text, phrase, i)
  }

  predicate SaysAt(text: string, phrase: string, i: nat)
    requires i + |phrase| <= |text|
  {
    forall k :: 0 <= k < |phrase| ==> LowerChar(text[i + k]) == phrase[k]
  }

  lemma SaysFolded(text: string, phrase: string)
    ensures Contains(Fold(text), phrase) <==> Says(text, phrase)
  {
    forall k: nat | k < |text| ensures Fold(text)[k] == LowerChar(text[k]) {
      FoldAt(text, k);
    }
    ContainsMeans(Fold(text), phrase);
    if i: nat :| OccursAt(Fold(text), phrase, i) {
      assert SaysAt(text, phrase, i) by {
        assert Fold(text)[i..i + |phrase|] == phrase;
        forall k | 0 <= k < |phrase| ensures LowerChar(text[i + k]) == phrase[k] {
          assert Fold(text)[i..i + |phrase|][k] == phrase[k];
        }
      }
    }
    if i: nat :| i + |phrase| <= |text| && SaysAt(text, phrase, i) {
      assert Fold(text)[i..i + |phrase|] == phrase;
      assert OccursAt(Fold(text), phrase, i);
    }
  }

  lemma {:induction false} ContainsMiddle(a: string, part: string, b: string)
    ensures Contains(a + part + b, part)
  {
    var s := a + part + b;
    if a == "" {
      assert s[..|part|] == part;
    } else {
      ContainsMiddle(a[1..], part, b);
      assert s[1..] == a[1..] + part + b;
    }
  }
}
