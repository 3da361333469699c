/** The Python string operations the modelled code uses. A char is one code point. */
module PyText {

  /** `str.isspace` on one code point. */
  predicate IsSpace(c: char) {
    var n := c as int;
    || 0x09 <= n <= 0x0D || 0x1C <= n <= 0x20 || n == 0x85 || n == 0xA0 || n == 0x1680
    || 0x2000 <= n <= 0x200A || n == 0x2028 || n == 0x2029 || n == 0x202F || n == 0x205F || n == 0x3000
  }

  function RStrip(s: string): (r: string)
    ensures r <= s
    ensures r != [] ==> !IsSpace(r[|r| - 1])
    ensures forall i | |r| <= i < |s| :: IsSpace(s[i])
  {
    if s != [] && IsSpace(s[|s| - 1]) then RStrip(s[..|s| - 1]) else s
  }

  function LStrip(s: string): (r: string)
    ensures |r| <= |s| && r == s[|s| - |r|..]
    ensures r != [] ==> !IsSpace(r[0])
    ensures forall i | 0 <= i < |s| - |r| :: IsSpace(s[i])
  {
    if s != [] && IsSpace(s[0]) then LStrip(s[1..]) else s
  }

  function Strip(s: string): (r: string)
    ensures r != [] ==> !IsSpace(r[0]) && !IsSpace(r[|r| - 1])
  {
    LStrip(RStrip(s))
  }

  /** `s.split(sep)` for a one-character separator: never empty. */
  function SplitOn(s: string, sep: char): (parts: seq<string>)
    ensures |parts| >= 1
  {
    if s == [] then [[]]
    else
      var rest := SplitOn(s[1..], sep);
      if s[0] == sep then [[]] + rest else [[s[0]] + rest[0]] + rest[1..]
  }

  /** Whatever lies between leading and trailing white space is what `rstrip` keeps. */
  lemma RStripUnique(s: string, r: string)
    requires r <= s
    requires r != [] ==> !IsSpace(r[|r| - 1])
    requires forall i | |r| <= i < |s| :: IsSpace(s[i])
    ensures RStrip(s) == r
  {
    var t := RStrip(s);
    assert r != [] ==> !IsSpace(s[|r| - 1]);
    assert t != [] ==> !IsSpace(s[|t| - 1]);
    assert |t| == |r|;
  }

  /** Splitting at a separator between two texts splits each by itself. */
  lemma {:induction false} SplitConcat(a: string, b: string, sep: char)
    ensures SplitOn(a + [sep] + b, sep) == SplitOn(a, sep) + SplitOn(b, sep)
  {
    var whole := a + [sep] + b;
    if a == [] {
      assert whole[1..] == b;
    } else {
      SplitConcat(a[1..], b, sep);
      assert whole[1..] == a[1..] + [sep] + b;
      SplitCons(a[0], a[1..], SplitOn(b, sep), whole, sep);
      assert [a[0]] + a[1..] == a;
    }
  }

  /** A character joins the first part. */
  function Joined(c: char, parts: seq<string>): seq<string>
    requires parts != []
  {
    [[c] + parts[0]] + parts[1..]
  }

  lemma JoinedConcat(c: char, parts: seq<string>, more: seq<string>)
    requires parts != []
    ensures Joined(c, parts + more) == Joined(c, parts) + more
  {
    assert (parts + more)[1..] == parts[1..] + more;
  }

  /** One more character in front, with more parts behind. */
  lemma SplitCons(c: char, a: string, more: seq<string>, whole: string, sep: char)
    requires whole != [] && whole[0] == c && SplitOn(whole[1..], sep) == SplitOn(a, sep) + more
    ensures SplitOn(whole, sep) == SplitOn([c] + a, sep) + more
  {
    assert ([c] + a)[1..] == a;
    var parts := SplitOn(a, sep);
    if c == sep {
      assert [[]] + (parts + more) == [[]] + parts + more;
    } else {
      JoinedConcat(c, parts, more);
      assert SplitOn(whole, sep) == Joined(c, parts + more);
      assert SplitOn([c] + a, sep) == Joined(c, parts);
    }
  }

  /** Leading white space is stripped. */
  lemma StripLeading(s: string, c: char)
    requires IsSpace(c)
    ensures Strip([c] + s) == Strip(s)
  {
    var longer, r := [c] + s, RStrip(s);
    if r == [] {
      assert forall i | 0 <= i < |longer| :: IsSpace(longer[i]);
      RStripUnique(longer, []);
    } else {
      assert [c] + r <= longer;
      assert forall i | |r| < i < |longer| :: longer[i] == s[i - 1];
      RStripUnique(longer, [c] + r);
      assert ([c] + r)[1..] == r;
    }
  }
}
