/** The windows of recent user messages handed to the memory jobs. */
module UserWindow {

  /** Python's `xs[-n:]`: the last n, everything for n == 0, and without the first -n for n < 0. */
  function LastPy<T>(xs: seq<T>, n: int): seq<T> {
    if n > 0 then (if n <= |xs| then xs[|xs| - n..] else xs)
    else if -n <= |xs| then xs[-n..] else []
  }

  function NonEmpty(messages: seq<string>): (r: seq<string>)
    ensures forall m | m in r :: m != ""
  {
    if messages == [] then []
    else (if messages[0] != "" then [messages[0]] else []) + NonEmpty(messages[1..])
  }

  /** Messages are dropped one by one, the empty ones and no others, and the rest stay in order. */
  lemma {:induction false} NonEmptyKeeps(a: seq<string>, b: seq<string>, m: string)
    ensures NonEmpty(a + b) == NonEmpty(a) + NonEmpty(b)
    ensures NonEmpty([m]) == if m == "" then [] else [m]
  {
    assert NonEmpty([]) == [];
    if a == [] {
      assert a + b == b;
    } else {
      NonEmptyKeeps(a[1..], b, m);
      NonEmptyHead(a + b);
      NonEmptyHead(a);
      assert (a + b)[1..] == a[1..] + b;
    }
  }

  lemma NonEmptyHead(s: seq<string>)
    requires s != []
    ensures NonEmpty(s) == if s[0] == "" then NonEmpty(s[1..]) else [s[0]] + NonEmpty(s[1..])
  {
  }

  /** The last n are a suffix of n, or of all there are; for zero all of them; for a negative n all but the first -n. */
  lemma LastAre<T>(xs: seq<T>, n: int)
    ensures n > 0 ==> exists front :: xs == front + LastPy(xs, n) && |LastPy(xs, n)| == if n < |xs| then n else |xs|
    ensures n == 0 ==> LastPy(xs, n) == xs
    ensures n < 0 ==> LastPy(xs, n) == if -n <= |xs| then xs[-n..] else []
  {
    if n > 0 {
      var k := |xs| - |LastPy(xs, n)|;
      assert xs == xs[..k] + LastPy(xs, n);
    }
  }

  /** The characters of all messages together. */
  lemma {:induction false} CharsAddUp(a: seq<string>, b: seq<string>, m: string)
    ensures TotalChars(a + b) == TotalChars(a) + TotalChars(b) && TotalChars([m]) == |m|
  {
    if a == [] {
      assert a + b == b;
    } else {
      CharsAddUp(a[1..], b, m);
      assert (a + b)[1..] == a[1..] + b;
    }
  }

  function Suffix(s: seq<string>, k: nat): seq<string>
    requires k <= |s|
  {
    s[|s| - k..]
  }

  function TotalChars(s: seq<string>): nat {
    if s == [] then 0 else |s[0]| + TotalChars(s[1..])
  }

  /** The last k messages, where no longer suffix fits into the limit, and they fit themselves or
      are the one message that is always kept. */
  ghost predicate LongestFitting(recent: seq<string>, k: nat, maxChars: int, keepLatest: bool) {
    && 1 <= k <= |recent|
    && (TotalChars(Suffix(recent, k)) <= maxChars || (keepLatest && k == 1))
    && (forall j | k < j <= |recent| :: TotalChars(Suffix(recent, j)) > maxChars)
  }

  /** A window kept of the recent messages is their tail; it fits into the limit, or is the one message always kept;
      and one message more would not fit. */
  ghost predicate FitsTightly(kept: seq<string>, recent: seq<string>, maxChars: int, keepLatest: bool) {
    && 0 < |kept| <= |recent| && kept == recent[|recent| - |kept|..]
    && (TotalChars(kept) <= maxChars || (keepLatest && |kept| == 1))
    && (|kept| < |recent| ==> |recent[|recent| - |kept| - 1]| + TotalChars(kept) > maxChars)
  }

  lemma LongestFitsTightly(recent: seq<string>, k: nat, maxChars: int, keepLatest: bool)
    requires LongestFitting(recent, k, maxChars, keepLatest)
    ensures FitsTightly(Suffix(recent, k), recent, maxChars, keepLatest)
  {
    if k < |recent| { SuffixStep(recent, k); }
  }

  lemma {:induction false} LongerSuffixIsLarger(s: seq<string>, k: nat, j: nat)
    requires k <= j <= |s|
    ensures TotalChars(Suffix(s, k)) <= TotalChars(Suffix(s, j))
  {
    if k >= j {
    } else {
      LongerSuffixIsLarger(s, k, j - 1);
      assert Suffix(s, j)[1..] == Suffix(s, j - 1);
    }
  }

  lemma SuffixStep(s: seq<string>, k: nat)
    requires k < |s|
    ensures Suffix(s, k + 1) == [s[|s| - 1 - k]] + Suffix(s, k)
    ensures TotalChars(Suffix(s, k + 1)) == |s[|s| - 1 - k]| + TotalChars(Suffix(s, k))
  {
    assert Suffix(s, k + 1)[1..] == Suffix(s, k);
  }

  function Reversed(s: seq<string>): (r: seq<string>)
    ensures |r| == |s|
  {
    if s == [] then [] else Reversed(s[1..]) + [s[0]]
  }

  lemma {:induction false} ReversedSnoc(s: seq<string>, x: string)
    ensures Reversed(s + [x]) == [x] + Reversed(s)
  {
    if s == [] {
    } else {
      ReversedSnoc(s[1..], x);
      assert (s + [x])[1..] == s[1..] + [x];
    }
  }

  method ClipUserMessages(userMessages: seq<string>, maxMessages: int, maxChars: int, preserveLatest: bool)
    returns (kept: seq<string>)
    ensures var recent := LastPy(NonEmpty(userMessages), maxMessages);
            && (recent == [] ==> kept == [])
            && (recent != [] && !preserveLatest && |recent[|recent| - 1]| > maxChars ==>
                  kept == [LastPy(recent[|recent| - 1], maxChars)])
            && (recent != [] && (preserveLatest || |recent[|recent| - 1]| <= maxChars) ==>
                  FitsTightly(kept, recent, maxChars, preserveLatest)
                  && exists k :: LongestFitting(recent, k, maxChars, preserveLatest) && kept == Suffix(recent, k))
  {
    var recent := LastPy(NonEmpty(userMessages), maxMessages);
    if recent == [] {
      return [];
    }
    kept := [];
    var totalChars := 0;
    var k := 0;
    while k < |recent|
      invariant k <= |recent|
      invariant Reversed(kept) == Suffix(recent, k) && |kept| == k
      invariant totalChars == TotalChars(Suffix(recent, k))
      invariant k > 0 ==> totalChars <= maxChars || (preserveLatest && k == 1)
      invariant k > 0 ==> preserveLatest || |recent[|recent| - 1]| <= maxChars
    {
      var message := recent[|recent| - 1 - k];
      SuffixStep(recent, k);
      if kept == [] && preserveLatest {
        kept, totalChars, k := [message], |message|, 1;
        continue;
      }
      if kept != [] && totalChars + |message| > maxChars {
        forall j | k < j <= |recent| ensures TotalChars(Suffix(recent, j)) > maxChars {
          LongerSuffixIsLarger(recent, k + 1, j);
        }
        break;
      }
      if kept == [] && |message| > maxChars {
        return [LastPy(message, maxChars)];
      }
      ReversedSnoc(kept, message);
      kept, totalChars, k := kept + [message], totalChars + |message|, k + 1;
    }
    kept := Reversed(kept);
    assert LongestFitting(recent, k, maxChars, preserveLatest);
    LongestFitsTightly(recent, k, maxChars, preserveLatest);
  }

  method BuildGateUserWindow(userMessages: seq<string>, maxMessages: int, maxChars: int) returns (kept: seq<string>)
    ensures var recent := LastPy(NonEmpty(userMessages), maxMessages);
            if recent == [] then kept == []
            else FitsTightly(kept, recent, maxChars, true)
                 && exists k :: LongestFitting(recent, k, maxChars, true) && kept == Suffix(recent, k)
  {
    kept := ClipUserMessages(userMessages, maxMessages, maxChars, true);
  }

  function Clamp(n: int, lo: nat, hi: nat): (r: nat)
    requires lo <= hi
    ensures lo <= r <= hi && (r == n || (n < lo && r == lo) || (n > hi && r == hi))
  {
    if n < lo then lo else if n > hi then hi else n
  }

  /** Only the messages submitted since the last consumed one are considered. */
  method BuildExtractionUserWindow(userMessages: seq<string>, lastConsumed: int, submitted: int, maxMessages: int,
                                   maxChars: int)
    returns (kept: seq<string>)
    ensures var start := Clamp(lastConsumed, 0, |userMessages|);
            var incremental := userMessages[start..Clamp(submitted, start, |userMessages|)];
            var recent := LastPy(NonEmpty(incremental), maxMessages);
            && (recent == [] ==> kept == [])
            && (recent != [] && maxChars >= 1 ==> kept != [] && TotalChars(kept) <= maxChars)
            && (recent != [] && |recent[|recent| - 1]| > maxChars ==> kept == [LastPy(recent[|recent| - 1], maxChars)])
            && (recent != [] && |recent[|recent| - 1]| <= maxChars ==>
                  FitsTightly(kept, recent, maxChars, false)
                  && exists k :: LongestFitting(recent, k, maxChars, false) && kept == Suffix(recent, k))
  {
    var start := Clamp(lastConsumed, 0, |userMessages|);
    var end := Clamp(submitted, start, |userMessages|);
    kept := ClipUserMessages(userMessages[start..end], maxMessages, maxChars, false);
  }
}
