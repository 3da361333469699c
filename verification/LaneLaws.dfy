/** What the semantic lane promises in terms of rows, scores and ids: which rows count as current, what a run leaves in
    the table, and which candidates it returns. */
module LaneLaws {
  import opened Basics
  import opened EmbeddingCache
  import opened Ordering
  import opened PyText
  import opened SemanticLane
  import opened Sequences
  import opened Sidecar

  // ----- current rows

  /** The row holds a vector of the dimension for the text of the record, by the configured provider and model. */
  predicate IsCurrent(row: SidecarRow, record: Record, dimension: int, config: Config, env: Env) {
    && row.textHash == env.hash(record.text)
    && row.textBuilder
       == (if record.candidate.source == "profile" then "profile_item_text:v1" else "episode_slice_text:v1")
    && row.embeddingProvider == config.providerName
    && row.embeddingModel == config.modelName
    && row.dimension == dimension
  }

  /** A record is embedded anew unless the row fetched under its source and id is current and its vector as long as
      the dimension: another text, builder, provider, model or dimension each make it stale. */
  lemma StaleIsEmbedded(records: seq<Record>, fetched: map<RowKey, SidecarRow>, dimension: int, config: Config,
                        env: Env, i: nat)
    requires i < |records|
    ensures var key := (records[i].candidate.source, records[i].candidate.itemId);
      i in Needed(records, fetched, dimension, config, env) <==>
        (key in fetched && IsCurrent(fetched[key], records[i], dimension, config, env) ==>
           |fetched[key].vector| != dimension)
  {
    assert RecordKey(records[i]) == (records[i].candidate.source, records[i].candidate.itemId);
  }

  ghost predicate Carries(table: Table, record: Record, dimension: int, config: Config, env: Env) {
    var key := (record.candidate.source, record.candidate.itemId);
    key in table && IsCurrent(table[key].row, record, dimension, config, env)
  }

  lemma HitCarries(table: Table, records: seq<Record>, rows: seq<SidecarRow>, config: Config, env: Env,
                   roundF32: real -> real, dimension: nat, i: nat)
    requires i < |records| && IsHit(records[i], Fetched(table, RecordKeys(records)), dimension, config, env)
    requires !Writes(rows, RecordKey(records[i]))
    ensures Carries(Upserted(table, rows, roundF32), records[i], dimension, config, env)
  {
    var key := RecordKey(records[i]);
    assert RecordKeys(records)[i] == key;
    UpsertedElsewhere(table, rows, roundF32, key);
  }

  lemma WrittenCarries(table: Table, records: seq<Record>, needed: seq<nat>, rows: seq<SidecarRow>, now: string,
                       config: Config, env: Env, roundF32: real -> real, computed: seq<Vector>, dimension: nat, i: nat)
    requires DistinctKeys(records) && i < |records| && i in needed && |needed| == |computed|
    requires forall j | 0 <= j < |needed| :: needed[j] < |records|
    requires rows == RowsFor(records, needed, computed, dimension, now, config, env)
    ensures Carries(Upserted(table, rows, roundF32), records[i], dimension, config, env)
  {
    var key := RecordKey(records[i]);
    assert KeyOfRow(rows[IndexOf(needed, i)]) == key;
    var j, created := UpsertedAt(table, rows, roundF32, key);
    assert RecordKey(records[needed[j]]) == key;
    assert needed[j] == i;
  }

  /** After a run that could read and committed every row, every record has a row of its text's current hash, of its
      builder, of the configured provider and model and of the query's dimension, whatever lay there before. */
  lemma RowsAreCurrent(table: Table, records: seq<Record>, queryText: string, provider: Provider, storage: Storage,
                       config: Config, env: Env, roundF32: real -> real, f: string -> Vector, i: nat)
    requires Faithful(provider, f) && DistinctKeys(records) && i < |records|
    requires storage.readable && storage.committed >= |records|
    ensures var after := RunWithSidecar(table, records, queryText, provider, storage, config, env, roundF32).1;
            Carries(after, records[i], |f(queryText)|, config, env)
  {
    FullCommit(table, records, queryText, provider, storage, config, env, roundF32, f);
    var q, fetched := f(queryText), FetchedFor(table, records, storage);
    var computed := Computed(records, fetched, |q|, config, env, f);
    var rows := NewRows(records, fetched, computed, |q|, storage.now, config, env);
    if IsHit(records[i], fetched, |q|, config, env) {
      HitNotWritten(records, fetched, computed, storage.now, |q|, config, env, i);
      HitCarries(table, records, rows, config, env, roundF32, |q|, i);
    } else {
      WrittenCarries(table, records, Needed(records, fetched, |q|, config, env), rows, storage.now, config, env,
                     roundF32, computed, |q|, i);
    }
  }

  // ----- counters and failures

  /** What a run that got through reports: each record is a hit, stale or missing; what was embedded was written if all
      of it was committed, and counts as errors otherwise; and an unreadable index has no hits and no stale rows. */
  lemma RunCounts(table: Table, records: seq<Record>, queryText: string, provider: Provider, storage: Storage,
                  config: Config, env: Env, roundF32: real -> real, f: string -> Vector)
    requires Faithful(provider, f)
    ensures var t := RunWithSidecar(table, records, queryText, provider, storage, config, env, roundF32).0.telemetry;
      && t.IndexUsed? && t.candidates == |records| && t.hits + t.stale + t.misses == |records|
      && t.writes + t.writeErrors == t.stale + t.misses
      && (t.writeErrors == 0 <==> storage.committed >= t.stale + t.misses || t.stale + t.misses == 0)
      && (t.writes == 0 || t.writeErrors == 0)
      && (!storage.readable ==> t.misses == |records|)
  {
    var q, fetched := f(queryText), FetchedFor(table, records, storage);
    FaithfulRun(table, records, queryText, provider, storage, config, env, roundF32, f);
    PlanPartitions(records, fetched, |q|, config, env, |records|);
    if !storage.readable { AllMiss(records, fetched, |records|); }
  }

  lemma {:induction false} AllMiss(records: seq<Record>, fetched: map<RowKey, SidecarRow>, n: nat)
    requires n <= |records| && fetched == map[]
    ensures |MissIndices(records, fetched, n)| == n
  {
    if n == 0 {
    } else {
      AllMiss(records, fetched, n - 1);
    }
  }

  /** A run that fails returns no candidate and leaves the table alone; it fails exactly when the query, or what has to
      be embedded, is not answered by as many vectors. */
  lemma RunFails(table: Table, records: seq<Record>, queryText: string, provider: Provider, storage: Storage,
                 config: Config, env: Env, roundF32: real -> real)
    ensures var (r, after) := RunWithSidecar(table, records, queryText, provider, storage, config, env, roundF32);
      && (r.error != NoError ==> r.candidates == [] && after == table)
      && (r.error == NoError <==>
            (&& provider([queryText]).Vectors? && |provider([queryText]).vectors| == 1
             && var fetched := FetchedFor(table, records, storage);
                var needed := Needed(records, fetched, |provider([queryText]).vectors[0]|, config, env);
                needed == [] || (provider(TextsAt(records, needed)).Vectors?
                                 && |provider(TextsAt(records, needed)).vectors| == |needed|)))
  {
  }

  // ----- the bucket of a row

  /** A profile row is filed under what its item's id has before the first colon, any other row under nothing. */
  lemma RowBucket(record: Record, vector: Vector, dimension: int, now: string, config: Config, env: Env)
    ensures var bucket := RowFor(record, vector, dimension, now, config, env).bucket;
      if record.candidate.source == "profile" then
        bucket <= record.candidate.itemId && ':' !in bucket
        && (|bucket| < |record.candidate.itemId| ==> record.candidate.itemId[|bucket|] == ':')
      else bucket == ""
  {
    if record.candidate.source == "profile" { FirstPart(record.candidate.itemId, ':'); }
  }

  lemma {:induction false} FirstPart(s: string, sep: char)
    ensures var part := SplitOn(s, sep)[0];
      part <= s && sep !in part && (|part| < |s| ==> s[|part|] == sep)
  {
    if s == [] {
    } else {
      FirstPart(s[1..], sep);
    }
  }

  // ----- the candidates

  /** The record as a candidate: with the cosine of its vector and the query's as its score. */
  ghost predicate IsHitOf(h: Hit, record: Record, score: real, env: Env) {
    && h.candidate == record.candidate.(score := score)
    && h.evidence.lanes == ["semantic"] && h.evidence.semanticScore == Some(score)
    && h.evidence.retrievalReason == env.formatReason(score)
  }

  /** The hit is one of the records with its cosine, and that is at or above the minimum. */
  ghost predicate Stems(h: Hit, records: seq<Record>, q: Vector, vectors: seq<Vector>, config: Config, env: Env)
    requires |records| == |vectors|
  {
    exists i | 0 <= i < |records| :: StemsFrom(h, records[i], q, vectors[i], config, env)
  }

  ghost predicate StemsFrom(h: Hit, record: Record, q: Vector, vector: Vector, config: Config, env: Env) {
    env.cosine(q, vector) >= config.minScore && IsHitOf(h, record, env.cosine(q, vector), env)
  }

  lemma {:induction false} HitStems(records: seq<Record>, q: Vector, vectors: seq<Vector>, config: Config, env: Env,
                                    h: Hit)
    requires |records| == |vectors| && h in ScoredHits(records, q, vectors, config, env)
    ensures Stems(h, records, q, vectors, config, env)
  {
    var n := |records| - 1;
    if h in ScoredHits(records[..n], q, vectors[..n], config, env) {
      HitStems(records[..n], q, vectors[..n], config, env, h);
      var i :| 0 <= i < n && StemsFrom(h, records[..n][i], q, vectors[..n][i], config, env);
      assert StemsFrom(h, records[i], q, vectors[i], config, env);
    } else {
      assert StemsFrom(h, records[n], q, vectors[n], config, env);
    }
  }

  lemma {:induction false} RecordHits(records: seq<Record>, q: Vector, vectors: seq<Vector>, config: Config, env: Env,
                                      i: nat)
    returns (h: Hit)
    requires |records| == |vectors| && i < |records| && env.cosine(q, vectors[i]) >= config.minScore
    ensures h in ScoredHits(records, q, vectors, config, env)
    ensures IsHitOf(h, records[i], env.cosine(q, vectors[i]), env)
  {
    var n := |records| - 1;
    if i == n {
      h := ScoredHit(records[n], env.cosine(q, vectors[n]), env);
    } else {
      h := RecordHits(records[..n], q, vectors[..n], config, env, i);
    }
  }

  /** Descending scores; sources and then ids decide, alphabetically. */
  ghost predicate HitInOrder(a: Hit, b: Hit) {
    && a.candidate.score >= b.candidate.score
    && (a.candidate.score == b.candidate.score ==>
          StrLe(a.candidate.source, b.candidate.source)
          && (a.candidate.source == b.candidate.source ==> StrLe(a.candidate.itemId, b.candidate.itemId)))
  }

  lemma HitLeIsPreorder()
    ensures TotalPreorder(HitLe)
    ensures forall a, b :: HitLe(a, b) ==> HitInOrder(a, b)
  {
    StrLeIsTotalOrder();
    assert forall a, b :: StrLe(a, b) || StrLe(b, a);
    assert forall a, b, c :: StrLe(a, b) && StrLe(b, c) ==> StrLe(a, c);
  }

  /** The record is among the candidates, or k others of at least its score are. */
  ghost predicate ShownOrBeaten(out: seq<Hit>, record: Record, score: real, k: int, env: Env) {
    || (exists h | h in out :: IsHitOf(h, record, score, env))
    || (|out| == k && forall h | h in out :: h.candidate.score >= score)
  }

  /** Each candidate is a record with its cosine, at or above the minimum; they come in descending order; and a record
      at or above the minimum is left out only when top_k others of at least its score are there. */
  ghost predicate AreTheBest(out: seq<Hit>, records: seq<Record>, q: Vector, vectors: seq<Vector>, config: Config,
                             env: Env)
    requires |records| == |vectors|
  {
    && (forall i, j | 0 <= i < j < |out| :: HitInOrder(out[i], out[j]))
    && (forall h | h in out :: Stems(h, records, q, vectors, config, env))
    && (config.topK >= 0 ==> |out| <= config.topK)
    && (config.topK >= 0 ==> forall i | 0 <= i < |records| && env.cosine(q, vectors[i]) >= config.minScore ::
          ShownOrBeaten(out, records[i], env.cosine(q, vectors[i]), config.topK, env))
  }

  lemma LeftOut(ranked: seq<Hit>, k: int, h: Hit)
    requires forall i, j | 0 <= i < j < |ranked| :: HitInOrder(ranked[i], ranked[j])
    requires h in ranked && k >= 0
    ensures var out := TakePy(ranked, k);
      h in out || (|out| == k && forall x | x in out :: x.candidate.score >= h.candidate.score)
  {
    var j :| 0 <= j < |ranked| && ranked[j] == h;
    var out := TakePy(ranked, k);
    if j < k {
      assert out[j] == h;
    } else {
      forall x | x in out ensures x.candidate.score >= h.candidate.score {
        var i :| 0 <= i < |out| && out[i] == x;
        assert ranked[i] == x;
      }
    }
  }

  lemma RankedAre(records: seq<Record>, q: Vector, vectors: seq<Vector>, config: Config, env: Env)
    requires |records| == |vectors|
    ensures var hits, ranked := ScoredHits(records, q, vectors, config, env), Rank(records, q, vectors, config, env);
      && (forall i, j | 0 <= i < j < |ranked| :: HitInOrder(ranked[i], ranked[j]))
      && (forall h :: h in ranked <==> h in hits)
  {
    var hits, ranked := ScoredHits(records, q, vectors, config, env), Rank(records, q, vectors, config, env);
    HitLeIsPreorder();
    SortBySorted(hits, HitLe);
    forall h ensures h in ranked <==> h in hits { SameElements(ranked, hits, h); }
  }

  lemma TopHitsAreBest(records: seq<Record>, q: Vector, vectors: seq<Vector>, config: Config, env: Env)
    requires |records| == |vectors|
    ensures AreTheBest(TakePy(Rank(records, q, vectors, config, env), config.topK), records, q, vectors, config, env)
  {
    var ranked := Rank(records, q, vectors, config, env);
    var out := TakePy(ranked, config.topK);
    RankedAre(records, q, vectors, config, env);
    forall h | h in out ensures Stems(h, records, q, vectors, config, env) {
      assert h in ranked;
      HitStems(records, q, vectors, config, env, h);
    }
    if config.topK >= 0 {
      forall i | 0 <= i < |records| && env.cosine(q, vectors[i]) >= config.minScore
        ensures ShownOrBeaten(out, records[i], env.cosine(q, vectors[i]), config.topK, env)
      {
        var h := RecordHits(records, q, vectors, config, env, i);
        LeftOut(ranked, config.topK, h);
      }
    }
  }

  /** With a faithful provider the lane without the index returns the best records by the cosine of embeddings; and
      so, over a sound table, does the lane with it. */
  lemma LaneReturnsBest(table: Table, records: seq<Record>, queryText: string, provider: Provider, storage: Storage,
                        config: Config, env: Env, roundF32: real -> real, f: string -> Vector)
    requires Faithful(provider, f) && Sound(table, config, env, f)
    ensures var vectors := Mapped(f, Texts(records));
      && AreTheBest(RunWithoutSidecar(records, queryText, provider, config, env).candidates, records, f(queryText),
                    vectors, config, env)
      && AreTheBest(RunWithSidecar(table, records, queryText, provider, storage, config, env, roundF32).0.candidates,
                    records, f(queryText), vectors, config, env)
  {
    var all := Mapped(f, [queryText] + Texts(records));
    assert provider([queryText] + Texts(records)) == Vectors(all);
    assert all[0] == f(queryText) && all[1..] == Mapped(f, Texts(records));
    SidecarAgrees(table, records, queryText, provider, storage, config, env, roundF32, f);
    TopHitsAreBest(records, f(queryText), Mapped(f, Texts(records)), config, env);
  }
}
