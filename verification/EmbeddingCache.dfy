/** The LRU cache in front of an embedding provider. The cache is an ordered dictionary: the keys,
    least recently used first, and the vector stored under each. */
module EmbeddingCache {
  import opened Basics
  import opened Sequences

  type Vector = seq<real>

  datatype Reply = Vectors(vectors: seq<Vector>) | Raised | CountMismatch

  /** One vector per text when it answers; it may raise, or answer with the wrong number. */
  type Provider = seq<string> -> Reply

  datatype Cache = Cache(keys: seq<string>, vectors: map<string, Vector>)

  ghost predicate Consistent(cache: Cache, maxItems: nat) {
    && Distinct(cache.keys)
    && |cache.keys| <= maxItems
    && (forall k :: k in cache.keys <==> k in cache.vectors)
  }

  // ----- the key order

  function Without(s: seq<string>, x: string): (r: seq<string>)
    ensures forall y :: y in r <==> y in s && y != x
  {
    if s == [] then []
    else if s[0] == x then Without(s[1..], x)
    else [s[0]] + Without(s[1..], x)
  }

  lemma {:induction false} WithoutFacts(s: seq<string>, x: string)
    requires Distinct(s)
    ensures Distinct(Without(s, x))
    ensures |Without(s, x)| == if x in s then |s| - 1 else |s|
    ensures x !in s ==> Without(s, x) == s
  {
    if s == [] {
    } else {
      assert s[0] !in s[1..];
      assert s == [s[0]] + s[1..];
      WithoutFacts(s[1..], x);
    }
  }

  function MoveToEnd(keys: seq<string>, text: string): seq<string> {
    Without(keys, text) + [text]
  }

  /** The first loop: every text found in the cache moves to the end. */
  function Touched(keys: seq<string>, texts: seq<string>): (r: seq<string>)
    ensures forall y :: y in r <==> y in keys
  {
    if texts == [] then keys
    else
      var before := Touched(keys, texts[..|texts| - 1]);
      var text := texts[|texts| - 1];
      if text in before then MoveToEnd(before, text) else before
  }

  /** The texts the cache lacks, each once, in order of first occurrence. */
  function Misses(keys: seq<string>, texts: seq<string>): (r: seq<string>)
    ensures forall y :: y in r <==> y in texts && y !in keys
    ensures Distinct(r)
  {
    if texts == [] then []
    else
      var n := |texts| - 1;
      var before := Misses(keys, texts[..n]);
      assert forall y :: y in texts <==> y in texts[..n] || y == texts[n];
      if texts[n] in keys || texts[n] in before then before else before + [texts[n]]
  }

  function LastN(s: seq<string>, n: nat): seq<string> {
    if |s| <= n then s else s[|s| - n..]
  }

  // ----- insertion and eviction

  function EvictOldest(cache: Cache): Cache
    requires cache.keys != []
  {
    Cache(cache.keys[1..], cache.vectors - {cache.keys[0]})
  }

  function Evict(cache: Cache, maxItems: nat): Cache
    decreases |cache.keys|
  {
    if |cache.keys| > maxItems then Evict(EvictOldest(cache), maxItems) else cache
  }

  function Store(cache: Cache, text: string, vector: Vector, maxItems: nat): Cache {
    Evict(Cache(MoveToEnd(cache.keys, text), cache.vectors[text := vector]), maxItems)
  }

  function StoreAll(cache: Cache, texts: seq<string>, vectors: seq<Vector>, maxItems: nat): Cache
    requires |texts| == |vectors|
  {
    if texts == [] then cache
    else
      var n := |texts| - 1;
      Store(StoreAll(cache, texts[..n], vectors[..n], maxItems), texts[n], vectors[n], maxItems)
  }

  // ----- one call

  /** The vector a text is answered with: the cached one, or the one computed for it. */
  function Answer(cache: Cache, misses: seq<string>, computed: seq<Vector>, text: string): Vector
    requires |misses| == |computed|
    requires text in cache.vectors || text in misses
  {
    if text in cache.vectors then cache.vectors[text] else computed[IndexOf(misses, text)]
  }

  function Answers(cache: Cache, misses: seq<string>, computed: seq<Vector>, texts: seq<string>): (r: seq<Vector>)
    requires |misses| == |computed|
    requires forall t | t in texts :: t in cache.vectors || t in misses
    ensures |r| == |texts|
  {
    seq(|texts|, i requires 0 <= i < |texts| => Answer(cache, misses, computed, texts[i]))
  }

  /** What `embed` answers and leaves in the cache. */
  function Embedded(cache: Cache, texts: seq<string>, provider: Provider, maxItems: nat): (r: (Reply, Cache))
    requires forall k :: k in cache.keys <==> k in cache.vectors
  {
    var misses := Misses(cache.keys, texts);
    var touched := cache.(keys := Touched(cache.keys, texts));
    if misses == [] then (Vectors(Answers(cache, [], [], texts)), touched)
    else
      match provider(misses)
      case Vectors(vs) =>
        if |vs| != |misses| then (CountMismatch, touched)
        else (Vectors(Answers(cache, misses, vs, texts)), StoreAll(touched, misses, vs, maxItems))
      case other => (other, touched)
  }

  method WithComputed(hits: map<string, Vector>, missing: seq<string>, computed: seq<Vector>)
    returns (r: map<string, Vector>)
    requires |missing| == |computed| && Distinct(missing) && forall t | t in missing :: t !in hits
    ensures forall t :: t in r <==> t in hits || t in missing
    ensures forall t | t in hits :: r[t] == hits[t]
    ensures forall t | t in missing :: r[t] == computed[IndexOf(missing, t)]
  {
    r := hits;
    for i := 0 to |missing|
      invariant forall t :: t in r <==> t in hits || t in missing[..i]
      invariant forall t | t in hits :: r[t] == hits[t]
      invariant forall j | 0 <= j < i :: r[missing[j]] == computed[j]
    {
      r := r[missing[i] := computed[i]];
    }
  }

  method ReadBack(texts: seq<string>, vectors: map<string, Vector>, ghost cache: Cache,
                  ghost misses: seq<string>, ghost computed: seq<Vector>)
    returns (result: seq<Vector>)
    requires |misses| == |computed|
    requires forall t | t in texts :: t in vectors && (t in cache.vectors || t in misses)
    requires forall t | t in texts :: vectors[t] == Answer(cache, misses, computed, t)
    ensures result == Answers(cache, misses, computed, texts)
  {
    result := [];
    for i := 0 to |texts|
      invariant |result| == i
      invariant forall j | 0 <= j < i :: result[j] == Answer(cache, misses, computed, texts[j])
    {
      assert texts[i] in texts;
      result := result + [vectors[texts[i]]];
    }
  }

  class CachedEmbeddingProvider {
    const provider: Provider
    const maxItems: nat
    var keys: seq<string>
    var vectors: map<string, Vector>

    ghost function View(): Cache
      reads this
    {
      Cache(keys, vectors)
    }

    ghost predicate Valid()
      reads this
    {
      maxItems >= 1 && Consistent(View(), maxItems)
    }

    constructor Unchecked(provider: Provider, maxItems: nat)
      requires maxItems >= 1
      ensures Valid() && View() == Cache([], map[])
      ensures this.provider == provider && this.maxItems == maxItems
    {
      this.provider, this.maxItems := provider, maxItems;
      keys, vectors := [], map[];
    }

    /** A bound below one is refused. */
    static method Create(provider: Provider, maxItems: int) returns (cache: CachedEmbeddingProvider?)
      ensures cache == null <==> maxItems < 1
      ensures cache != null ==> fresh(cache) && cache.Valid() && cache.View() == Cache([], map[])
    {
      if maxItems < 1 {
        return null;
      }
      cache := new CachedEmbeddingProvider.Unchecked(provider, maxItems);
    }

    /** The first loop: hits are answered and moved to the end, the rest collected once each. */
    method ScanHits(texts: seq<string>) returns (missing: seq<string>, hits: map<string, Vector>)
      requires Valid()
      modifies this`keys
      ensures Valid()
      ensures keys == Touched(old(keys), texts)
      ensures missing == Misses(old(keys), texts)
      ensures forall t :: t in hits <==> t in texts && t in vectors
      ensures forall t | t in hits :: hits[t] == vectors[t]
    {
      ghost var start := keys;
      missing, hits := [], map[];
      for i := 0 to |texts|
        invariant Valid()
        invariant keys == Touched(start, texts[..i])
        invariant missing == Misses(start, texts[..i])
        invariant forall t :: t in hits <==> t in texts[..i] && t in vectors
        invariant forall t | t in hits :: hits[t] == vectors[t]
      {
        var text := texts[i];
        assert texts[..i + 1][..i] == texts[..i];
        assert forall t :: t in texts[..i + 1] <==> t in texts[..i] || t == text;
        if text in vectors {
          WithoutFacts(keys, text);
          keys := MoveToEnd(keys, text);
          hits := hits[text := vectors[text]];
        } else if text !in missing {
          missing := missing + [text];
        }
      }
      assert texts[..|texts|] == texts;
    }

    /** The second loop: every computed vector is stored, with eviction after each. */
    method StoreMisses(missing: seq<string>, computed: seq<Vector>)
      requires Valid() && |missing| == |computed|
      modifies this
      ensures Valid()
      ensures View() == StoreAll(old(View()), missing, computed, maxItems)
    {
      ghost var start := View();
      for i := 0 to |missing|
        invariant Valid()
        invariant View() == StoreAll(start, missing[..i], computed[..i], maxItems)
      {
        assert missing[..i + 1][..i] == missing[..i] && computed[..i + 1][..i] == computed[..i];
        StoreOne(missing[i], computed[i]);
      }
      assert missing[..|missing|] == missing && computed[..|computed|] == computed;
    }

    method Embed(texts: seq<string>) returns (reply: Reply)
      requires Valid()
      modifies this
      ensures Valid()
      ensures (reply, View()) == Embedded(old(View()), texts, provider, maxItems)
    {
      ghost var start := View();
      var missing, resultVectors := ScanHits(texts);
      var computed: seq<Vector> := [];
      if missing != [] {
        var answered := provider(missing);
        if !answered.Vectors? {
          return answered;
        }
        computed := answered.vectors;
        if |computed| != |missing| {
          return CountMismatch;
        }
        resultVectors := WithComputed(resultVectors, missing, computed);
        StoreMisses(missing, computed);
      }
      var result := ReadBack(texts, resultVectors, start, missing, computed);
      reply := Vectors(result);
    }

    /** Insert one vector at the end, then evict from the front. */
    method StoreOne(text: string, vector: Vector)
      requires Valid()
      modifies this
      ensures Valid()
      ensures View() == Store(old(View()), text, vector, maxItems)
    {
      ghost var stored := Cache(MoveToEnd(keys, text), vectors[text := vector]);
      StoredIndexed(View(), text, vector);
      vectors := vectors[text := vector];
      keys := MoveToEnd(keys, text);
      assert View() == stored;
      DictCount(vectors, keys);
      while |vectors| > maxItems
        invariant Indexed(View()) && |vectors| == |keys|
        invariant Evict(View(), maxItems) == Evict(stored, maxItems)
        decreases |keys|
      {
        EvictOldestIndexed(View());
        keys, vectors := keys[1..], vectors - {keys[0]};
        DictCount(vectors, keys);
      }
    }
  }

  lemma StoredIndexed(cache: Cache, text: string, vector: Vector)
    requires Indexed(cache)
    ensures Indexed(Cache(MoveToEnd(cache.keys, text), cache.vectors[text := vector]))
  {
    WithoutFacts(cache.keys, text);
  }

  // ----- the key order, declaratively

  /** The keys not among the texts, in their old order. */
  function Untouched(keys: seq<string>, texts: seq<string>): (r: seq<string>)
    ensures forall y :: y in r <==> y in keys && y !in texts
  {
    if keys == [] then []
    else if keys[0] in texts then Untouched(keys[1..], texts)
    else [keys[0]] + Untouched(keys[1..], texts)
  }

  /** The texts that are keys, each once, in order of last occurrence. */
  function LastSeen(keys: seq<string>, texts: seq<string>): (r: seq<string>)
    ensures forall y :: y in r <==> y in keys && y in texts
  {
    if texts == [] then []
    else
      var n := |texts| - 1;
      assert forall y :: y in texts <==> y in texts[..n] || y == texts[n];
      if texts[n] in keys then Without(LastSeen(keys, texts[..n]), texts[n]) + [texts[n]]
      else LastSeen(keys, texts[..n])
  }

  lemma {:induction false} WithoutConcat(a: seq<string>, b: seq<string>, x: string)
    ensures Without(a + b, x) == Without(a, x) + Without(b, x)
  {
    if a == [] {
      assert a + b == b;
    } else {
      WithoutConcat(a[1..], b, x);
      assert (a + b)[1..] == a[1..] + b;
    }
  }

  lemma {:induction false} UntouchedSnoc(keys: seq<string>, texts: seq<string>, x: string)
    ensures Untouched(keys, texts + [x]) == Without(Untouched(keys, texts), x)
  {
    if keys == [] {
    } else {
      UntouchedSnoc(keys[1..], texts, x);
    }
  }

  lemma {:induction false} WithoutAbsent(s: seq<string>, x: string)
    requires x !in s
    ensures Without(s, x) == s
  {
    if s == [] {
    } else {
      WithoutAbsent(s[1..], x);
    }
  }

  /** Touching hits puts them behind the untouched keys, most recently asked for last. */
  lemma {:induction false} TouchedIsRecency(keys: seq<string>, texts: seq<string>)
    ensures Touched(keys, texts) == Untouched(keys, texts) + LastSeen(keys, texts)
  {
    if texts == [] {
      AllUntouched(keys);
    } else {
      var n := |texts| - 1;
      var init, x := texts[..n], texts[n];
      assert texts == init + [x];
      TouchedIsRecency(keys, init);
      UntouchedSnoc(keys, init, x);
      var u, l := Untouched(keys, init), LastSeen(keys, init);
      if x in keys {
        WithoutConcat(u, l, x);
      } else {
        WithoutAbsent(u, x);
      }
    }
  }

  lemma {:induction false} AllUntouched(keys: seq<string>)
    ensures Untouched(keys, []) == keys
  {
    if keys == [] {
    } else {
      AllUntouched(keys[1..]);
    }
  }

  /** Distinct keys, and the dictionary's own. */
  ghost predicate Indexed(cache: Cache) {
    Distinct(cache.keys) && forall k :: k in cache.keys <==> k in cache.vectors
  }

  lemma EvictOldestIndexed(cache: Cache)
    requires Indexed(cache) && cache.keys != []
    ensures Indexed(EvictOldest(cache))
  {
    var next := EvictOldest(cache);
    assert cache.keys == [cache.keys[0]] + next.keys;
    assert forall k :: k in next.keys <==> k in cache.keys && k != cache.keys[0];
  }

  lemma {:induction false} EvictKeepsLast(cache: Cache, maxItems: nat)
    requires Indexed(cache)
    ensures Evict(cache, maxItems).keys == LastN(cache.keys, maxItems)
    ensures Indexed(Evict(cache, maxItems))
    decreases |cache.keys|
  {
    if |cache.keys| <= maxItems {
    } else {
      EvictOldestIndexed(cache);
      EvictKeepsLast(EvictOldest(cache), maxItems);
    }
  }

  lemma StoreKeepsLast(cache: Cache, text: string, vector: Vector, maxItems: nat)
    requires Consistent(cache, maxItems) && text !in cache.keys
    ensures Store(cache, text, vector, maxItems).keys == LastN(cache.keys + [text], maxItems)
    ensures Consistent(Store(cache, text, vector, maxItems), maxItems)
  {
    WithoutAbsent(cache.keys, text);
    EvictKeepsLast(Cache(cache.keys + [text], cache.vectors[text := vector]), maxItems);
  }

  /** Storing one more text after others. */
  lemma StoreAfter(before: Cache, stored: seq<string>, text: string, vector: Vector, maxItems: nat)
    requires Consistent(before, maxItems) && before.keys == LastN(stored, maxItems) && text !in stored
    ensures Store(before, text, vector, maxItems).keys == LastN(stored + [text], maxItems)
    ensures Consistent(Store(before, text, vector, maxItems), maxItems)
  {
    NotInLast(stored, maxItems, text);
    StoreKeepsLast(before, text, vector, maxItems);
    LastNSnoc(stored, text, maxItems);
  }

  lemma {:induction false} StoreAllKeepsLast(cache: Cache, texts: seq<string>, vectors: seq<Vector>, maxItems: nat)
    requires Consistent(cache, maxItems) && |texts| == |vectors| && Distinct(texts)
    requires forall t | t in texts :: t !in cache.keys
    ensures StoreAll(cache, texts, vectors, maxItems).keys == LastN(cache.keys + texts, maxItems)
    ensures Consistent(StoreAll(cache, texts, vectors, maxItems), maxItems)
  {
    if texts == [] {
      assert cache.keys + texts == cache.keys;
    } else {
      var n := |texts| - 1;
      var before := StoreAll(cache, texts[..n], vectors[..n], maxItems);
      StoreAllKeepsLast(cache, texts[..n], vectors[..n], maxItems);
      StoreAfter(before, cache.keys + texts[..n], texts[n], vectors[n], maxItems);
      assert cache.keys + texts == cache.keys + texts[..n] + [texts[n]];
    }
  }

  lemma NotInLast(s: seq<string>, n: nat, x: string)
    requires x !in s
    ensures x !in LastN(s, n)
  {
  }

  lemma {:induction false} EvictStaysCoherent(cache: Cache, maxItems: nat, f: string -> Vector)
    requires Coherent(cache, f)
    ensures Coherent(Evict(cache, maxItems), f)
    decreases |cache.keys|
  {
    if |cache.keys| <= maxItems {
    } else {
      EvictStaysCoherent(EvictOldest(cache), maxItems, f);
    }
  }

  lemma {:induction false} StoreAllStaysCoherent(cache: Cache, texts: seq<string>, vectors: seq<Vector>,
                                                 maxItems: nat, f: string -> Vector)
    requires Coherent(cache, f) && vectors == Mapped(f, texts)
    ensures Coherent(StoreAll(cache, texts, vectors, maxItems), f)
  {
    if texts == [] {
    } else {
      var n := |texts| - 1;
      var before := StoreAll(cache, texts[..n], vectors[..n], maxItems);
      StoreAllStaysCoherent(cache, texts[..n], vectors[..n], maxItems, f);
      EvictStaysCoherent(Cache(MoveToEnd(before.keys, texts[n]), before.vectors[texts[n] := vectors[n]]), maxItems, f);
    }
  }

  lemma LastNSnoc(s: seq<string>, x: string, n: nat)
    ensures LastN(LastN(s, n) + [x], n) == LastN(s + [x], n)
  {
  }

  lemma {:induction false} TouchedDistinct(keys: seq<string>, texts: seq<string>)
    requires Distinct(keys)
    ensures Distinct(Touched(keys, texts)) && |Touched(keys, texts)| == |keys|
  {
    if texts == [] {
    } else {
      var before := Touched(keys, texts[..|texts| - 1]);
      TouchedDistinct(keys, texts[..|texts| - 1]);
      WithoutFacts(before, texts[|texts| - 1]);
    }
  }

  // ----- the main results

  /** A call keeps the cache consistent and within its bound; a call that answers leaves exactly
      the last `maxItems` of: untouched old keys, hits by recency, misses by first occurrence. */
  lemma EmbeddedKeys(cache: Cache, texts: seq<string>, provider: Provider, maxItems: nat)
    requires Consistent(cache, maxItems)
    ensures var (reply, after) := Embedded(cache, texts, provider, maxItems);
            var reordered := Untouched(cache.keys, texts) + LastSeen(cache.keys, texts);
            && Consistent(after, maxItems)
            && after.keys
               == (if reply.Vectors? then LastN(reordered + Misses(cache.keys, texts), maxItems) else reordered)
  {
    var misses := Misses(cache.keys, texts);
    var touched := cache.(keys := Touched(cache.keys, texts));
    TouchedIsRecency(cache.keys, texts);
    TouchedDistinct(cache.keys, texts);
    if misses == [] {
      assert touched.keys + misses == touched.keys;
    } else if provider(misses).Vectors? && |provider(misses).vectors| == |misses| {
      StoreAllKeepsLast(touched, misses, provider(misses).vectors, maxItems);
    }
  }

  /** The provider embeds every text by itself, the same way each time. */
  ghost predicate Faithful(provider: Provider, f: string -> Vector) {
    forall texts :: provider(texts) == Vectors(Mapped(f, texts))
  }

  ghost predicate Coherent(cache: Cache, f: string -> Vector) {
    forall k | k in cache.vectors :: cache.vectors[k] == f(k)
  }

  /** Over a faithful provider the cache is invisible: the answer is the provider's own, text by
      text, whatever was cached and whatever gets evicted, and the cache stays coherent. */
  lemma CacheIsInvisible(cache: Cache, texts: seq<string>, provider: Provider, f: string -> Vector, maxItems: nat)
    requires Consistent(cache, maxItems)
    requires Faithful(provider, f) && Coherent(cache, f)
    ensures var (reply, after) := Embedded(cache, texts, provider, maxItems);
            reply == provider(texts) && Coherent(after, f)
  {
    var misses := Misses(cache.keys, texts);
    var touched := cache.(keys := Touched(cache.keys, texts));
    if misses == [] {
      assert Answers(cache, [], [], texts) == Mapped(f, texts);
    } else {
      var vs := Mapped(f, misses);
      assert provider(misses) == Vectors(vs);
      StoreAllStaysCoherent(touched, misses, vs, maxItems, f);
      assert Answers(cache, misses, vs, texts) == Mapped(f, texts);
    }
    assert provider(texts) == Vectors(Mapped(f, texts));
  }
}
