/** The terms of a text in terms of its characters, and the lexical score in numbers. */
module TokenizerLaws {
  import opened Tokenizer

  // ----- characters

  predicate IsUpper(c: char) { 'A' <= c <= 'Z' }

  predicate IsLatin(c: char) { '0' <= c <= '9' || 'A' <= c <= 'Z' || 'a' <= c <= 'z' }

  /** A CJK ideograph: of extension A, of the unified block, or a compatibility ideograph. */
  predicate IsIdeograph(c: char) {
    || 0x3400 <= c as int <= 0x4DBF
    || 0x4E00 <= c as int <= 0x9FFF
    || 0xF900 <= c as int <= 0xFAFF
  }

  lemma KindIs(c: char)
    ensures KindOf(c) == Ascii <==> IsLatin(c)
    ensures KindOf(c) == Cjk <==> IsIdeograph(c)
    ensures KindOf(c) == Other <==> !IsLatin(c) && !IsIdeograph(c)
  {
  }

  /** t is s with its capital letters made small. */
  ghost predicate IsLowerOf(t: string, s: string) {
    && |t| == |s|
    && forall k | 0 <= k < |s| :: t[k] as int == s[k] as int + if IsUpper(s[k]) then 32 else 0
  }

  lemma LowerIs(t: string, s: string)
    ensures t == Lower(s) <==> IsLowerOf(t, s)
  {
    if IsLowerOf(t, s) { assert forall k | 0 <= k < |s| :: t[k] == Lower(s)[k]; }
  }

  // ----- one run

  lemma WholeIsOnly(text: string, i: nat, j: nat)
    requires IsMaximalRun(text, i, j) && forall k | 0 <= k < |text| :: KindOf(text[k]) == KindOf(text[0])
    ensures i == 0 && j == |text|
  {
  }

  lemma WholeRun(text: string, term: string)
    requires text != [] && KindOf(text[0]) != Other && forall k | 0 <= k < |text| :: KindOf(text[k]) == KindOf(text[0])
    ensures HasTerm(text, term) <==> term in RunTerms(KindOf(text[0]), text)
  {
    assert text[0..|text|] == text;
    if HasTerm(text, term) {
      var i: nat, j: nat :| TermOfRun(text, i, j, term);
      WholeIsOnly(text, i, j);
    }
    if term in RunTerms(KindOf(text[0]), text) { assert TermOfRun(text, 0, |text|, term); }
  }

  /** A run of letters and digits has itself as a term, in small letters, unless it is a single one; and its pairs of
      neighbours from four characters on. */
  lemma LatinTerms(text: string, term: string)
    requires text != [] && forall k | 0 <= k < |text| :: IsLatin(text[k])
    ensures HasTerm(text, term) <==>
      (|| (|text| >= 2 && IsLowerOf(term, text))
       || (|text| >= 4 && exists i | 0 <= i < |text| - 1 :: IsLowerOf(term, Pair(text, i))))
  {
    forall k | 0 <= k < |text| ensures KindOf(text[k]) == Ascii { KindIs(text[k]); }
    WholeRun(text, term);
    LowerIs(term, text);
    PairsOf(text, term);
  }

  function Pair(text: string, i: int): string
    requires 0 <= i < |text| - 1
  {
    [text[i], text[i + 1]]
  }

  lemma InBigrams(text: string, term: string)
    ensures term in Bigrams(text) <==> exists i | 0 <= i < |text| - 1 :: term == Pair(text, i)
  {
    forall i | 0 <= i < |text| - 1 ensures Bigram(text, i) == Pair(text, i) { }
    if i :| 0 <= i < |text| - 1 && term == Pair(text, i) { assert Bigram(text, i) in Bigrams(text); }
    if term in Bigrams(text) {
      var i: nat :| 0 <= i < |text| - 1 && term == Bigram(text, i);
      assert term == Pair(text, i);
    }
  }

  lemma PairsOf(text: string, term: string)
    ensures term in Bigrams(Lower(text)) <==> exists i | 0 <= i < |text| - 1 :: IsLowerOf(term, Pair(text, i))
  {
    InBigrams(Lower(text), term);
    forall i | 0 <= i < |text| - 1 ensures term == Pair(Lower(text), i) <==> IsLowerOf(term, Pair(text, i)) {
      LowerIs(term, Pair(text, i));
      assert Pair(Lower(text), i) == Lower(Pair(text, i));
    }
  }

  /** A run of ideographs has itself as a term, unless it is a single one, and each ideograph and pair of neighbours. */
  lemma IdeographTerms(text: string, term: string)
    requires text != [] && forall k | 0 <= k < |text| :: IsIdeograph(text[k])
    ensures HasTerm(text, term) <==>
      (|| (|text| >= 2 && term == text)
       || (exists i | 0 <= i < |text| :: term == [text[i]])
       || (exists i | 0 <= i < |text| - 1 :: term == Pair(text, i)))
  {
    forall k | 0 <= k < |text| ensures KindOf(text[k]) == Cjk { KindIs(text[k]); }
    WholeRun(text, term);
    InBigrams(text, term);
  }

  // ----- case

  predicate SameButCase(a: char, b: char) {
    a == b || (IsUpper(a) && b as int == a as int + 32) || (IsUpper(b) && a as int == b as int + 32)
  }

  lemma CaseKeepsRuns(a: string, b: string, i: nat, j: nat, term: string)
    requires |a| == |b| && forall k | 0 <= k < |a| :: SameButCase(a[k], b[k])
    ensures TermOfRun(a, i, j, term) ==> TermOfRun(b, i, j, term)
  {
    assert forall k | 0 <= k < |a| :: KindOf(a[k]) == KindOf(b[k]) && LowerChar(a[k]) == LowerChar(b[k]);
    assert forall k | 0 <= k < |a| && KindOf(a[k]) == Cjk :: a[k] == b[k];
    if IsMaximalRun(a, i, j) {
      assert IsMaximalRun(b, i, j);
      if KindOf(a[i]) == Ascii {
        assert Lower(a[i..j]) == Lower(b[i..j]);
      } else {
        assert a[i..j] == b[i..j];
      }
    }
  }

  /** Texts that differ in case only have the same terms. */
  lemma CaseIsIgnored(a: string, b: string, term: string)
    requires |a| == |b| && forall k | 0 <= k < |a| :: SameButCase(a[k], b[k])
    ensures HasTerm(a, term) <==> HasTerm(b, term)
  {
    if HasTerm(a, term) {
      var i: nat, j: nat :| TermOfRun(a, i, j, term);
      CaseKeepsRuns(a, b, i, j, term);
    }
    if HasTerm(b, term) {
      var i: nat, j: nat :| TermOfRun(b, i, j, term);
      CaseKeepsRuns(b, a, i, j, term);
    }
  }

  // ----- the score

  /** The score by the terms of two characters or more that the query and the text have: twice the common ones by all
      of both, or zero when that is below 0.05 or either has none. */
  lemma ScoreInNumbers(queryTerms: set<string>, textTerms: set<string>)
    ensures var q, t := set x | x in queryTerms && |x| >= 2, set x | x in textTerms && |x| >= 2;
      var score := ScoreOf(Meaningful(queryTerms), Meaningful(textTerms));
      && (q == {} || t == {} ==> score == 0.0)
      && (q != {} ==>
            var dice := 2.0 * |q * t| as real / (|q| as real + |t| as real);
            score == if dice < 0.05 then 0.0 else dice)
  {
    var q, t := set x | x in queryTerms && |x| >= 2, set x | x in textTerms && |x| >= 2;
    assert Meaningful(queryTerms) == q && Meaningful(textTerms) == t;
    if q != {} { ScoreIsDice(q, t); }
  }
}
