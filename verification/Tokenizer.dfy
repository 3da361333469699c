/** The lexical lane's tokenizer, a scan with one buffer for ASCII letters and digits and one for
    CJK ideographs, and the score built on it. */
module Tokenizer {

  datatype Kind = Ascii | Cjk | Other

  predicate IsCjk(c: char) {
    var n := c as int;
    0x3400 <= n <= 0x4DBF || 0x4E00 <= n <= 0x9FFF || 0xF900 <= n <= 0xFAFF
  }

  predicate IsAsciiAlnum(c: char) {
    '0' <= c <= '9' || 'A' <= c <= 'Z' || 'a' <= c <= 'z'
  }

  function KindOf(c: char): Kind {
    if IsAsciiAlnum(c) then Ascii else if IsCjk(c) then Cjk else Other
  }

  // ----- the terms of one run

  function LowerChar(c: char): char {
    if 'A' <= c <= 'Z' then (c as int + 32) as char else c
  }

  function Lower(s: string): (r: string)
    ensures |r| == |s| && forall i | 0 <= i < |r| :: r[i] == LowerChar(s[i])
  {
    seq(|s|, i requires 0 <= i < |s| => LowerChar(s[i]))
  }

  function Bigram(token: string, i: nat): string
    requires i + 2 <= |token|
  {
    token[i..i + 2]
  }

  function Bigrams(token: string): set<string> {
    set i | 0 <= i < |token| - 1 :: Bigram(token, i)
  }

  function AsciiTerms(run: string): set<string> {
    var token := Lower(run);
    if |token| < 2 then {} else {token} + (if |token| >= 4 then Bigrams(token) else {})
  }

  function CjkTerms(run: string): set<string> {
    (if |run| >= 2 then {run} else {}) + (set i | 0 <= i < |run| :: [run[i]]) + Bigrams(run)
  }

  function RunTerms(kind: Kind, run: string): set<string> {
    match kind
    case Ascii => AsciiTerms(run)
    case Cjk => CjkTerms(run)
    case Other => {}
  }

  // ----- the terms of a text

  /** text[i..j] is a maximal stretch of one kind, ASCII or CJK. */
  predicate IsMaximalRun(text: string, i: nat, j: nat) {
    && i < j <= |text|
    && KindOf(text[i]) != Other
    && (forall k | i <= k < j :: KindOf(text[k]) == KindOf(text[i]))
    && (i > 0 ==> KindOf(text[i - 1]) != KindOf(text[i]))
    && (j < |text| ==> KindOf(text[j]) != KindOf(text[i]))
  }

  predicate TermOfRun(text: string, i: nat, j: nat, term: string) {
    IsMaximalRun(text, i, j) && term in RunTerms(KindOf(text[i]), text[i..j])
  }

  /** The terms of the maximal runs that end at or before position s. */
  ghost predicate TermBefore(text: string, s: nat, term: string) {
    exists i: nat, j: nat :: j <= s && TermOfRun(text, i, j, term)
  }

  /** The terms of all maximal runs. */
  ghost predicate HasTerm(text: string, term: string) {
    exists i: nat, j: nat :: TermOfRun(text, i, j, term)
  }

  /** What the buffers hold after n characters: the stretch text[s..n], still open. */
  ghost predicate OpenRun(text: string, s: nat, n: nat) {
    && s <= n <= |text|
    && (s == n ==> n == 0 || KindOf(text[n - 1]) == Other)
    && (s < n ==>
          && KindOf(text[s]) != Other
          && (forall k | s <= k < n :: KindOf(text[k]) == KindOf(text[s]))
          && (s > 0 ==> KindOf(text[s - 1]) != KindOf(text[s])))
  }

  /** Between the start of the open stretch and n at most one run ends: the stretch itself. */
  lemma OnlyOpenRunEnds(text: string, s: nat, n: nat, i: nat, j: nat)
    requires OpenRun(text, s, n)
    requires IsMaximalRun(text, i, j) && s < j <= n
    ensures i == s && j == n
  {
    assert KindOf(text[j - 1]) == KindOf(text[i]) == KindOf(text[s]);
  }

  ghost function OpenTerms(text: string, s: nat, n: nat): set<string>
    requires s <= n <= |text|
  {
    if s < n then RunTerms(KindOf(text[s]), text[s..n]) else {}
  }

  /** Closing the open stretch at n adds its terms and no others. */
  lemma CloseRun(text: string, s: nat, n: nat, term: string)
    requires OpenRun(text, s, n)
    requires n < |text| && s < n ==> KindOf(text[n]) != KindOf(text[s])
    ensures TermBefore(text, n, term)
            <==> TermBefore(text, s, term) || term in OpenTerms(text, s, n)
  {
    if TermBefore(text, n, term) {
      var i: nat, j: nat :| j <= n && TermOfRun(text, i, j, term);
      if s < j { OnlyOpenRunEnds(text, s, n, i, j); }
    }
    if term in OpenTerms(text, s, n) {
      assert TermOfRun(text, s, n, term);
    }
  }

  /** No run ends right behind a separator. */
  lemma SeparatorEndsNothing(text: string, n: nat, term: string)
    requires n < |text| && KindOf(text[n]) == Other
    ensures TermBefore(text, n + 1, term) <==> TermBefore(text, n, term)
  {
    if TermBefore(text, n + 1, term) {
      var i: nat, j: nat :| j <= n + 1 && TermOfRun(text, i, j, term);
      assert forall k | i <= k < j :: KindOf(text[k]) != Other;
      assert j <= n;
    }
  }

  method FlushAscii(buffer: string, terms: set<string>) returns (r: set<string>)
    ensures r == terms + AsciiTerms(buffer)
    ensures buffer == [] ==> r == terms
  {
    r := terms;
    if buffer == [] {
      return;
    }
    var token := Lower(buffer);
    if |token| < 2 {
      return;
    }
    r := r + {token};
    if |token| >= 4 {
      r := r + Bigrams(token);
    }
  }

  method FlushCjk(buffer: string, terms: set<string>) returns (r: set<string>)
    ensures r == terms + CjkTerms(buffer)
    ensures buffer == [] ==> r == terms
  {
    r := terms;
    if buffer == [] {
      return;
    }
    if |buffer| >= 2 {
      r := r + {buffer};
    }
    r := r + (set i | 0 <= i < |buffer| :: [buffer[i]]);
    r := r + Bigrams(buffer);
  }

  /** The buffer of a kind: the open stretch if it is of that kind, else empty. */
  ghost function BufferOf(text: string, s: nat, n: nat, kind: Kind): string
    requires s <= n <= |text|
  {
    if s < n && KindOf(text[s]) == kind then text[s..n] else []
  }

  /** A character of the open stretch's kind, or the first of a new stretch, goes into the buffer of its kind. */
  lemma BufferGrows(text: string, s: nat, n: nat, kind: Kind)
    requires s <= n < |text| && KindOf(text[n]) != Other
    requires forall k | s <= k < n :: KindOf(text[k]) == KindOf(text[n])
    requires s > 0 ==> KindOf(text[s - 1]) != KindOf(text[n])
    ensures OpenRun(text, s, n + 1)
    ensures BufferOf(text, s, n + 1, kind) ==
            if kind == KindOf(text[n]) then BufferOf(text, s, n, kind) + [text[n]] else []
  {
    assert text[s..n + 1] == text[s..n] + [text[n]];
    assert s < n ==> KindOf(text[s]) == KindOf(text[n]);
  }

  /** The terms of the runs that end at or before s, and no others. */
  ghost predicate Collected(terms: set<string>, text: string, s: nat) {
    forall term :: term in terms <==> TermBefore(text, s, term)
  }

  lemma CollectOpen(terms: set<string>, text: string, s: nat, n: nat)
    requires OpenRun(text, s, n) && Collected(terms, text, s)
    requires n < |text| && s < n ==> KindOf(text[n]) != KindOf(text[s])
    ensures Collected(terms + OpenTerms(text, s, n), text, n)
  {
    forall term
      ensures term in terms + OpenTerms(text, s, n) <==> TermBefore(text, n, term)
    {
      CloseRun(text, s, n, term);
    }
  }

  lemma CollectAtSeparator(terms: set<string>, text: string, s: nat, n: nat)
    requires OpenRun(text, s, n) && Collected(terms, text, s)
    requires n < |text| && KindOf(text[n]) == Other
    ensures Collected(terms + OpenTerms(text, s, n), text, n + 1)
  {
    CollectOpen(terms, text, s, n);
    forall term
      ensures TermBefore(text, n + 1, term) <==> TermBefore(text, n, term)
    {
      SeparatorEndsNothing(text, n, term);
    }
  }

  /** At most one of the two buffers holds anything, the open stretch: flushing them adds its terms. */
  lemma BuffersAreOpen(text: string, s: nat, n: nat, terms: set<string>)
    requires OpenRun(text, s, n)
    ensures var ascii, cjk := BufferOf(text, s, n, Ascii), BufferOf(text, s, n, Cjk);
      && terms + AsciiTerms(ascii) + CjkTerms(cjk) == terms + OpenTerms(text, s, n)
      && terms + AsciiTerms(ascii) == (if ascii != [] then terms + OpenTerms(text, s, n) else terms)
      && terms + CjkTerms(cjk) == (if cjk != [] then terms + OpenTerms(text, s, n) else terms)
      && (ascii == [] && cjk == [] ==> s == n)
  {
    var ascii, cjk := BufferOf(text, s, n, Ascii), BufferOf(text, s, n, Cjk);
    NothingFlushed();
    if s < n {
      assert ascii == [] || cjk == [];
    }
  }

  lemma NothingFlushed()
    ensures AsciiTerms([]) == {} && CjkTerms([]) == {}
  {
    assert Lower([]) == [];
  }

  /** Where the scan stands after n characters: the open stretch starts at s. */
  ghost predicate Scanned(text: string, s: nat, n: nat, ascii: string, cjk: string, terms: set<string>) {
    && OpenRun(text, s, n)
    && ascii == BufferOf(text, s, n, Ascii) && cjk == BufferOf(text, s, n, Cjk)
    && Collected(terms, text, s)
  }

  lemma ScanAscii(text: string, s: nat, n: nat, ascii: string, cjk: string, terms: set<string>)
    requires n < |text| && KindOf(text[n]) == Ascii && Scanned(text, s, n, ascii, cjk, terms)
    ensures Scanned(text, if cjk != [] then n else s, n + 1, ascii + [text[n]], "", terms + CjkTerms(cjk))
  {
    var next := if cjk != [] then n else s;
    BuffersAreOpen(text, s, n, terms);
    if cjk != [] { CollectOpen(terms, text, s, n); }
    BufferGrows(text, next, n, Ascii);
    BufferGrows(text, next, n, Cjk);
  }

  lemma ScanCjk(text: string, s: nat, n: nat, ascii: string, cjk: string, terms: set<string>)
    requires n < |text| && KindOf(text[n]) == Cjk && Scanned(text, s, n, ascii, cjk, terms)
    ensures Scanned(text, if ascii != [] then n else s, n + 1, "", cjk + [text[n]], terms + AsciiTerms(ascii))
  {
    var next := if ascii != [] then n else s;
    BuffersAreOpen(text, s, n, terms);
    if ascii != [] { CollectOpen(terms, text, s, n); }
    BufferGrows(text, next, n, Ascii);
    BufferGrows(text, next, n, Cjk);
  }

  lemma ScanOther(text: string, s: nat, n: nat, ascii: string, cjk: string, terms: set<string>)
    requires n < |text| && KindOf(text[n]) == Other && Scanned(text, s, n, ascii, cjk, terms)
    ensures Scanned(text, n + 1, n + 1, "", "", terms + AsciiTerms(ascii) + CjkTerms(cjk))
  {
    BuffersAreOpen(text, s, n, terms);
    CollectAtSeparator(terms, text, s, n);
  }

  lemma ScanEnds(text: string, s: nat, ascii: string, cjk: string, terms: set<string>)
    requires Scanned(text, s, |text|, ascii, cjk, terms)
    ensures forall term :: term in terms + AsciiTerms(ascii) + CjkTerms(cjk) <==> HasTerm(text, term)
  {
    BuffersAreOpen(text, s, |text|, terms);
    CollectOpen(terms, text, s, |text|);
    forall term ensures TermBefore(text, |text|, term) <==> HasTerm(text, term) { AllRunsEnd(text, term); }
  }

  method TokenizeForLexical(text: string) returns (terms: set<string>)
    ensures forall term :: term in terms <==> HasTerm(text, term)
  {
    terms := {};
    var asciiBuffer, cjkBuffer := "", "";
    ghost var s := 0;
    for n := 0 to |text|
      invariant Scanned(text, s, n, asciiBuffer, cjkBuffer, terms)
    {
      var c := text[n];
      if IsAsciiAlnum(c) {
        ScanAscii(text, s, n, asciiBuffer, cjkBuffer, terms);
        s := if cjkBuffer != [] then n else s;
        terms := FlushCjk(cjkBuffer, terms);
        cjkBuffer := "";
        asciiBuffer := asciiBuffer + [c];
      } else if IsCjk(c) {
        ScanCjk(text, s, n, asciiBuffer, cjkBuffer, terms);
        s := if asciiBuffer != [] then n else s;
        terms := FlushAscii(asciiBuffer, terms);
        asciiBuffer := "";
        cjkBuffer := cjkBuffer + [c];
      } else {
        ScanOther(text, s, n, asciiBuffer, cjkBuffer, terms);
        s := n + 1;
        terms := FlushAscii(asciiBuffer, terms);
        terms := FlushCjk(cjkBuffer, terms);
        asciiBuffer, cjkBuffer := "", "";
      }
    }
    ScanEnds(text, s, asciiBuffer, cjkBuffer, terms);
    terms := FlushAscii(asciiBuffer, terms);
    terms := FlushCjk(cjkBuffer, terms);
  }

  lemma AllRunsEnd(text: string, term: string)
    ensures TermBefore(text, |text|, term) <==> HasTerm(text, term)
  {
    if HasTerm(text, term) {
      var i: nat, j: nat :| TermOfRun(text, i, j, term);
      assert j <= |text|;
    }
  }

  lemma RunInLeft(x: string, separator: char, y: string, i: nat, j: nat)
    requires KindOf(separator) == Other && j <= |x|
    ensures IsMaximalRun(x, i, j) <==> IsMaximalRun(x + [separator] + y, i, j)
    ensures i <= j ==> (x + [separator] + y)[i..j] == x[i..j]
  {
    var text := x + [separator] + y;
    assert forall k | 0 <= k < |x| :: text[k] == x[k];
    assert text[|x|] == separator;
  }

  lemma RunInRight(x: string, separator: char, y: string, i: nat, j: nat)
    requires KindOf(separator) == Other
    ensures IsMaximalRun(y, i, j) <==> IsMaximalRun(x + [separator] + y, i + |x| + 1, j + |x| + 1)
    ensures i <= j <= |y| ==> (x + [separator] + y)[i + |x| + 1..j + |x| + 1] == y[i..j]
  {
    var text, m := x + [separator] + y, |x| + 1;
    assert forall k | m <= k < |text| :: text[k] == y[k - m];
    assert forall k | 0 <= k < |y| :: text[k + m] == y[k];
    assert text[m - 1] == separator;
  }

  lemma NoRunAcross(text: string, p: nat, i: nat, j: nat)
    requires p < |text| && KindOf(text[p]) == Other && IsMaximalRun(text, i, j)
    ensures j <= p || p < i
  {
  }

  lemma TermInLeft(x: string, separator: char, y: string, i: nat, j: nat, term: string)
    requires KindOf(separator) == Other && j <= |x|
    ensures TermOfRun(x, i, j, term) <==> TermOfRun(x + [separator] + y, i, j, term)
  {
    RunInLeft(x, separator, y, i, j);
    if i < j { assert (x + [separator] + y)[i] == x[i]; }
  }

  lemma TermInRight(x: string, separator: char, y: string, i: nat, j: nat, term: string)
    requires KindOf(separator) == Other
    ensures TermOfRun(y, i, j, term) <==> TermOfRun(x + [separator] + y, i + |x| + 1, j + |x| + 1, term)
  {
    RunInRight(x, separator, y, i, j);
    if i < j <= |y| { assert (x + [separator] + y)[i + |x| + 1] == y[i]; }
  }

  /** Around a separator the texts contribute their own terms, and nothing arises across it. */
  lemma SeparatorSplits(x: string, separator: char, y: string, term: string)
    requires KindOf(separator) == Other
    ensures HasTerm(x + [separator] + y, term) <==> HasTerm(x, term) || HasTerm(y, term)
  {
    var text, m := x + [separator] + y, |x| + 1;
    if HasTerm(text, term) {
      var i: nat, j: nat :| TermOfRun(text, i, j, term);
      NoRunAcross(text, |x|, i, j);
      if j <= |x| {
        TermInLeft(x, separator, y, i, j, term);
      } else {
        TermInRight(x, separator, y, i - m, j - m, term);
      }
    }
    if HasTerm(x, term) {
      var i: nat, j: nat :| TermOfRun(x, i, j, term);
      TermInLeft(x, separator, y, i, j, term);
    }
    if HasTerm(y, term) {
      var i: nat, j: nat :| TermOfRun(y, i, j, term);
      TermInRight(x, separator, y, i, j, term);
    }
  }

  // ----- the score

  const MIN_LEXICAL_SCORE := 0.05

  /** Every branch of the source asks for the same: at least two characters. */
  predicate IsMeaningfulTerm(term: string) { |term| >= 2 }

  function Meaningful(terms: set<string>): set<string> { set t | t in terms && IsMeaningfulTerm(t) }

  /** The harmonic mean of precision and recall, as computed, with the floor below which it is zero. */
  function ScoreOf(queryTerms: set<string>, textTerms: set<string>): real {
    if queryTerms == {} || textTerms == {} then 0.0
    else
      var overlap := queryTerms * textTerms;
      if overlap == {} then 0.0
      else
        HarmonicScore(|overlap| as real, |textTerms| as real, |queryTerms| as real)
  }

  function HarmonicScore(overlap: real, textTerms: real, queryTerms: real): real
    requires textTerms > 0.0 && queryTerms > 0.0
  {
    var precision := overlap / textTerms;
    var recall := overlap / queryTerms;
    if precision + recall == 0.0 then 0.0 else Floored(2.0 * precision * recall / (precision + recall))
  }

  function Floored(score: real): real { if score < MIN_LEXICAL_SCORE then 0.0 else score }

  method LexicalScore(queryTerms: set<string>, text: string) returns (score: real)
    ensures exists terms: set<string> :: (forall t :: t in terms <==> HasTerm(text, t))
                                         && score == ScoreOf(Meaningful(queryTerms), Meaningful(terms))
  {
    var terms := TokenizeForLexical(text);
    score := ScoreOf(Meaningful(queryTerms), Meaningful(terms));
  }

  function Dice(a: set<string>, b: set<string>): real
    requires a != {}
  {
    2.0 * |a * b| as real / (|a| as real + |b| as real)
  }

  /** Precision and recall over a common overlap, and their harmonic mean. */
  lemma HarmonicMean(o: real, t: real, q: real)
    requires o > 0.0 && t > 0.0 && q > 0.0
    ensures o / t + o / q > 0.0
    ensures 2.0 * (o / t) * (o / q) / (o / t + o / q) == 2.0 * o / (q + t)
  {
    var p, r := o / t, o / q;
    assert p * t == o && r * q == o;
    assert p > 0.0 && r > 0.0;
    CrossMultiplied(p, r, t, q, o);
    FractionsEqual(2.0 * p * r, p + r, 2.0 * o, q + t);
  }

  lemma CrossMultiplied(p: real, r: real, t: real, q: real, o: real)
    requires p * t == o && r * q == o
    ensures 2.0 * p * r * (q + t) == 2.0 * o * (p + r)
  {
    calc {
      2.0 * p * r * (q + t);
    ==
      2.0 * p * (r * q) + 2.0 * r * (p * t);
    ==
      2.0 * p * o + 2.0 * r * o;
    ==
      2.0 * o * (p + r);
    }
  }

  lemma FractionsEqual(a: real, b: real, c: real, d: real)
    requires b > 0.0 && d > 0.0 && a * d == c * b
    ensures a / b == c / d
  {
    var y := c / d;
    assert y * d == c;
    Cancel(y * b, a, d, y, b, c);
    assert y * b == a;
  }

  lemma Cancel(x: real, a: real, d: real, y: real, b: real, c: real)
    requires d > 0.0 && x == y * b && y * d == c && a * d == c * b
    ensures x == a
  {
    calc {
      x * d;
    ==
      (y * d) * b;
    ==
      a * d;
    }
  }

  lemma HarmonicScoreIs(o: real, t: real, q: real)
    requires o > 0.0 && t > 0.0 && q > 0.0
    ensures HarmonicScore(o, t, q) == Floored(2.0 * o / (q + t))
  {
    HarmonicMean(o, t, q);
  }

  lemma OverlapScore(queryTerms: set<string>, textTerms: set<string>)
    requires queryTerms * textTerms != {}
    ensures ScoreOf(queryTerms, textTerms) == Floored(Dice(queryTerms, textTerms))
  {
    SubsetCount(queryTerms * textTerms, queryTerms);
    SubsetCount(queryTerms * textTerms, textTerms);
    HarmonicScoreIs(|queryTerms * textTerms| as real, |textTerms| as real, |queryTerms| as real);
  }

  /** The score is zero or the Dice coefficient: zero exactly when that lies below the floor, one
      exactly for equal non-empty term sets, and never outside [0.05, 1]. */
  lemma ScoreIsDice(queryTerms: set<string>, textTerms: set<string>)
    requires queryTerms != {}
    ensures var score, dice := ScoreOf(queryTerms, textTerms), Dice(queryTerms, textTerms);
            && score == (if dice < MIN_LEXICAL_SCORE then 0.0 else dice)
            && (score == 0.0 || MIN_LEXICAL_SCORE <= score <= 1.0)
            && (score == 1.0 <==> queryTerms == textTerms)
  {
    var overlap := queryTerms * textTerms;
    SubsetCount(overlap, queryTerms);
    SubsetCount(overlap, textTerms);
    DiceBounds(|overlap|, |queryTerms|, |textTerms|);
    FullOverlap(queryTerms, textTerms);
    if overlap != {} { OverlapScore(queryTerms, textTerms); }
  }

  lemma FullOverlap(a: set<string>, b: set<string>)
    ensures |a * b| == |a| == |b| <==> a == b
  {
    if |a * b| == |a| == |b| {
      SubsetFull(a * b, a);
      SubsetFull(a * b, b);
    }
    if a == b { assert a * b == a; }
  }

  lemma Quotient(a: real, b: real)
    requires 0.0 <= a <= b && b > 0.0
    ensures 0.0 <= a / b <= 1.0
    ensures a / b == 1.0 <==> a == b
    ensures a / b == 0.0 <==> a == 0.0
  {
    assert a / b * b == a;
  }

  lemma DiceBounds(o: nat, q: nat, t: nat)
    requires q > 0 && o <= q && o <= t
    ensures var dice := 2.0 * o as real / (q as real + t as real);
            && 0.0 <= dice <= 1.0
            && (dice == 1.0 <==> o == q == t)
            && (dice == 0.0 <==> o == 0)
  {
    Quotient(2.0 * o as real, q as real + t as real);
  }

  lemma SubsetCount(a: set<string>, b: set<string>)
    requires a <= b
    ensures |a| <= |b|
  {
    assert b == a + (b - a);
  }

  lemma SubsetFull(a: set<string>, b: set<string>)
    requires a <= b && |a| == |b|
    ensures a == b
  {
    assert b == a + (b - a);
    assert |b| == |a| + |b - a|;
  }
}
