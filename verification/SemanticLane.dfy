/** The semantic lane with and without the persistent index. */
module SemanticLane {
  import opened Basics
  import opened EmbeddingCache
  import opened Evidence
  import opened Ordering
  import opened PyText
  import opened RecallModels
  import opened Sequences
  import opened Sidecar

  datatype Record = Record(candidate: RecallCandidate, evidence: EvidenceView, text: string)

  datatype Config = Config(providerName: string, modelName: string, minScore: real, topK: int)

  /** Functions the lane calls but does not define. */
  datatype Env = Env(hash: string -> string, cosine: (Vector, Vector) -> real, formatReason: real -> string)

  datatype Hit = Hit(candidate: RecallCandidate, evidence: EvidenceView)

  datatype LaneError = NoError | EmbeddingError(reply: Reply) | CountMismatchError

  datatype Telemetry =
    | IndexDisabled
    | QueryFailed(candidates: nat)
    | QueryMismatch
    | EmbeddingFailed(candidates: nat, hits: nat, stale: nat, misses: nat)
    | IndexUsed(candidates: nat, hits: nat, stale: nat, misses: nat, writes: nat, writeErrors: nat)

  datatype LaneResult = LaneResult(candidates: seq<Hit>, error: LaneError, telemetry: Telemetry)

  const SEMANTIC := "semantic"

  // ----- ranking

  predicate HitLe(a: Hit, b: Hit) {
    || a.candidate.score > b.candidate.score
    || (a.candidate.score == b.candidate.score
        && (|| (a.candidate.source != b.candidate.source && StrLe(a.candidate.source, b.candidate.source))
            || (a.candidate.source == b.candidate.source && StrLe(a.candidate.itemId, b.candidate.itemId))))
  }

  function ScoredHit(record: Record, score: real, env: Env): Hit {
    Hit(record.candidate.(score := score),
        record.evidence.(lanes := [SEMANTIC], semanticScore := Some(score), retrievalReason := env.formatReason(score)))
  }

  /** The records at or above the minimum score, in record order. */
  function ScoredHits(records: seq<Record>, queryVector: Vector, vectors: seq<Vector>, config: Config,
                      env: Env): seq<Hit>
    requires |records| == |vectors|
  {
    if records == [] then []
    else
      var n := |records| - 1;
      var before := ScoredHits(records[..n], queryVector, vectors[..n], config, env);
      var score := env.cosine(queryVector, vectors[n]);
      if score < config.minScore then before else before + [ScoredHit(records[n], score, env)]
  }

  function Rank(records: seq<Record>, queryVector: Vector, vectors: seq<Vector>, config: Config, env: Env): seq<Hit>
    requires |records| == |vectors|
  {
    SortBy(ScoredHits(records, queryVector, vectors, config, env), HitLe)
  }

  method RankRecords(records: seq<Record>, queryVector: Vector, vectors: seq<Vector>, config: Config, env: Env)
    returns (ranked: seq<Hit>)
    requires |records| == |vectors|
    ensures ranked == Rank(records, queryVector, vectors, config, env)
  {
    ranked := [];
    for i := 0 to |records|
      invariant ranked == ScoredHits(records[..i], queryVector, vectors[..i], config, env)
    {
      assert records[..i + 1][..i] == records[..i] && vectors[..i + 1][..i] == vectors[..i];
      var score := env.cosine(queryVector, vectors[i]);
      if score < config.minScore {
        continue;
      }
      ranked := ranked + [ScoredHit(records[i], score, env)];
    }
    assert records[..|records|] == records && vectors[..|vectors|] == vectors;
    ranked := SortBy(ranked, HitLe);
  }

  function Texts(records: seq<Record>): (r: seq<string>)
    ensures |r| == |records| && forall i | 0 <= i < |r| :: r[i] == records[i].text
  {
    seq(|records|, i requires 0 <= i < |records| => records[i].text)
  }

  // ----- without the index

  function RunWithoutSidecar(records: seq<Record>, queryText: string, provider: Provider, config: Config,
                             env: Env): LaneResult {
    match provider([queryText] + Texts(records))
    case Vectors(vs) =>
      if |vs| != |records| + 1 then LaneResult([], CountMismatchError, IndexDisabled)
      else LaneResult(TakePy(Rank(records, vs[0], vs[1..], config, env), config.topK), NoError, IndexDisabled)
    case other => LaneResult([], EmbeddingError(other), IndexDisabled)
  }

  // ----- with the index

  function RecordKey(record: Record): RowKey { (record.candidate.source, record.candidate.itemId) }

  function RecordKeys(records: seq<Record>): (r: seq<RowKey>)
    ensures |r| == |records| && forall i | 0 <= i < |r| :: r[i] == RecordKey(records[i])
  {
    seq(|records|, i requires 0 <= i < |records| => RecordKey(records[i]))
  }

  /** The text builder of a source's rows. */
  function BuilderOf(source: string): string {
    if source == PROFILE then PROFILE_TEXT_BUILDER else SLICE_TEXT_BUILDER
  }

  function TextBuilder(record: Record): string { BuilderOf(record.candidate.source) }

  function Bucket(candidate: RecallCandidate): string {
    if candidate.source != PROFILE then "" else SplitOn(candidate.itemId, ':')[0]
  }

  predicate IsHit(record: Record, fetched: map<RowKey, SidecarRow>, dimension: int, config: Config, env: Env) {
    && RecordKey(record) in fetched
    && IsRowValidFor(fetched[RecordKey(record)], env.hash(record.text), TextBuilder(record),
                     config.providerName, config.modelName, dimension)
  }

  /** Positions among the first n whose record has no row, a row that is not valid, a valid row. */
  function MissIndices(records: seq<Record>, fetched: map<RowKey, SidecarRow>, n: nat): (r: seq<nat>)
    requires n <= |records|
    ensures forall j | 0 <= j < |r| :: r[j] < n
  {
    if n == 0 then []
    else MissIndices(records, fetched, n - 1) + if RecordKey(records[n - 1]) in fetched then [] else [n - 1]
  }

  function StaleIndices(records: seq<Record>, fetched: map<RowKey, SidecarRow>, dimension: int, config: Config,
                        env: Env, n: nat): (r: seq<nat>)
    requires n <= |records|
    ensures forall j | 0 <= j < |r| :: r[j] < n
  {
    if n == 0 then []
    else
      StaleIndices(records, fetched, dimension, config, env, n - 1)
      + if RecordKey(records[n - 1]) in fetched && !IsHit(records[n - 1], fetched, dimension, config, env)
        then [n - 1] else []
  }

  function HitIndices(records: seq<Record>, fetched: map<RowKey, SidecarRow>, dimension: int, config: Config,
                      env: Env, n: nat): (r: seq<nat>)
    requires n <= |records|
    ensures forall j | 0 <= j < |r| :: r[j] < n
  {
    if n == 0 then []
    else
      HitIndices(records, fetched, dimension, config, env, n - 1)
      + if IsHit(records[n - 1], fetched, dimension, config, env) then [n - 1] else []
  }

  lemma {:induction false} MissIndicesAre(records: seq<Record>, fetched: map<RowKey, SidecarRow>, n: nat)
    requires n <= |records|
    ensures Distinct(MissIndices(records, fetched, n))
    ensures forall i :: i in MissIndices(records, fetched, n) <==> 0 <= i < n && RecordKey(records[i]) !in fetched
  {
    if n == 0 {
    } else {
      MissIndicesAre(records, fetched, n - 1);
    }
  }

  lemma {:induction false} StaleIndicesAre(records: seq<Record>, fetched: map<RowKey, SidecarRow>, dimension: int,
                                           config: Config, env: Env, n: nat)
    requires n <= |records|
    ensures Distinct(StaleIndices(records, fetched, dimension, config, env, n))
    ensures forall i :: i in StaleIndices(records, fetched, dimension, config, env, n)
              <==> 0 <= i < n && RecordKey(records[i]) in fetched && !IsHit(records[i], fetched, dimension, config, env)
  {
    if n == 0 {
    } else {
      StaleIndicesAre(records, fetched, dimension, config, env, n - 1);
    }
  }

  lemma {:induction false} HitIndicesAre(records: seq<Record>, fetched: map<RowKey, SidecarRow>, dimension: int,
                                         config: Config, env: Env, n: nat)
    requires n <= |records|
    ensures Distinct(HitIndices(records, fetched, dimension, config, env, n))
    ensures forall i :: i in HitIndices(records, fetched, dimension, config, env, n)
              <==> 0 <= i < n && IsHit(records[i], fetched, dimension, config, env)
  {
    if n == 0 {
    } else {
      HitIndicesAre(records, fetched, dimension, config, env, n - 1);
    }
  }

  /** The indices to embed, misses before stale rows: exactly the records that are not hits, each once. */
  function Needed(records: seq<Record>, fetched: map<RowKey, SidecarRow>, dimension: int, config: Config,
                  env: Env): (r: seq<nat>)
    ensures Distinct(r)
    ensures forall j | 0 <= j < |r| :: r[j] < |records|
    ensures forall i :: i in r <==> 0 <= i < |records| && !IsHit(records[i], fetched, dimension, config, env)
  {
    var misses, stale :=
      MissIndices(records, fetched, |records|), StaleIndices(records, fetched, dimension, config, env, |records|);
    MissIndicesAre(records, fetched, |records|);
    StaleIndicesAre(records, fetched, dimension, config, env, |records|);
    DisjointDistinct(misses, stale);
    misses + stale
  }

  lemma DisjointDistinct(a: seq<nat>, b: seq<nat>)
    requires Distinct(a) && Distinct(b) && forall x | x in a :: x !in b
    ensures Distinct(a + b)
  {
    var s := a + b;
    forall i, j | 0 <= i < j < |s| ensures s[i] != s[j] {
      if i < |a| <= j { assert s[i] in a && s[j] in b; }
    }
  }

  function TextsAt(records: seq<Record>, indices: seq<nat>): (r: seq<string>)
    requires forall j | 0 <= j < |indices| :: indices[j] < |records|
    ensures |r| == |indices| && forall j | 0 <= j < |r| :: r[j] == records[indices[j]].text
  {
    seq(|indices|, j requires 0 <= j < |indices| => records[indices[j]].text)
  }

  function RowFor(record: Record, vector: Vector, dimension: int, now: string, config: Config, env: Env): SidecarRow {
    SidecarRow(record.candidate.source, record.candidate.itemId, env.hash(record.text), TextBuilder(record),
               config.providerName, config.modelName, dimension, vector, Bucket(record.candidate), now, now)
  }

  function RowsFor(records: seq<Record>, indices: seq<nat>, computed: seq<Vector>, dimension: int, now: string,
                   config: Config, env: Env): (r: seq<SidecarRow>)
    requires |indices| == |computed| && forall j | 0 <= j < |indices| :: indices[j] < |records|
    ensures |r| == |indices|
    ensures forall j | 0 <= j < |r| :: r[j] == RowFor(records[indices[j]], computed[j], dimension, now, config, env)
  {
    seq(|indices|,
        j requires 0 <= j < |indices| => RowFor(records[indices[j]], computed[j], dimension, now, config, env))
  }

  /** A record's vector: the stored one on a hit, the computed one otherwise. */
  function VectorOf(records: seq<Record>, fetched: map<RowKey, SidecarRow>, needed: seq<nat>, computed: seq<Vector>,
                    dimension: int, config: Config, env: Env, i: nat): Vector
    requires i < |records| && |needed| == |computed|
    requires IsHit(records[i], fetched, dimension, config, env) || i in needed
  {
    if IsHit(records[i], fetched, dimension, config, env) then fetched[RecordKey(records[i])].vector
    else computed[IndexOf(needed, i)]
  }

  function RecordVectors(records: seq<Record>, fetched: map<RowKey, SidecarRow>, computed: seq<Vector>,
                         dimension: int, config: Config, env: Env): (r: seq<Vector>)
    requires |computed| == |Needed(records, fetched, dimension, config, env)|
    ensures |r| == |records|
    ensures var needed := Needed(records, fetched, dimension, config, env);
            forall i | 0 <= i < |r| :: r[i] == VectorOf(records, fetched, needed, computed, dimension, config, env, i)
  {
    var needed := Needed(records, fetched, dimension, config, env);
    seq(|records|,
        i requires 0 <= i < |records| => VectorOf(records, fetched, needed, computed, dimension, config, env, i))
  }

  /** The database's part in a run: whether the read works, how many rows get committed, the clock. */
  datatype Storage = Storage(readable: bool, committed: nat, now: string)

  function FetchedFor(table: Table, records: seq<Record>, storage: Storage): map<RowKey, SidecarRow> {
    if storage.readable then Fetched(table, RecordKeys(records)) else map[]
  }

  function Committed(storage: Storage, count: nat): nat {
    if storage.committed <= count then storage.committed else count
  }

  /** The rows a run writes. */
  function NewRows(records: seq<Record>, fetched: map<RowKey, SidecarRow>, computed: seq<Vector>, dimension: int,
                   now: string, config: Config, env: Env): (r: seq<SidecarRow>)
    requires |computed| == |Needed(records, fetched, dimension, config, env)|
    ensures |r| == |computed|
  {
    RowsFor(records, Needed(records, fetched, dimension, config, env), computed, dimension, now, config, env)
  }

  /** The rest of the run once the missing vectors are there. */
  function Finish(records: seq<Record>, queryVector: Vector, fetched: map<RowKey, SidecarRow>, computed: seq<Vector>,
                  table: Table, storage: Storage, config: Config, env: Env, roundF32: real -> real): (LaneResult, Table)
    requires |computed| == |Needed(records, fetched, |queryVector|, config, env)|
  {
    var dimension := |queryVector|;
    var rows := NewRows(records, fetched, computed, dimension, storage.now, config, env);
    var committed := Committed(storage, |rows|);
    var vectors := RecordVectors(records, fetched, computed, dimension, config, env);
    (LaneResult(TakePy(Rank(records, queryVector, vectors, config, env), config.topK), NoError,
                IndexUsed(|records|, |HitIndices(records, fetched, dimension, config, env, |records|)|,
                          |StaleIndices(records, fetched, dimension, config, env, |records|)|,
                          |MissIndices(records, fetched, |records|)|,
                          if committed == |rows| then |rows| else 0, if committed == |rows| then 0 else |rows|)),
     Upserted(table, rows[..committed], roundF32))
  }

  /** The counters when the missing vectors cannot be computed. */
  function FailedPlan(records: seq<Record>, fetched: map<RowKey, SidecarRow>, dimension: int, config: Config,
                      env: Env): Telemetry {
    EmbeddingFailed(|records|, |HitIndices(records, fetched, dimension, config, env, |records|)|,
                    |StaleIndices(records, fetched, dimension, config, env, |records|)|,
                    |MissIndices(records, fetched, |records|)|)
  }

  function RunWithSidecar(table: Table, records: seq<Record>, queryText: string, provider: Provider,
                          storage: Storage, config: Config, env: Env, roundF32: real -> real): (LaneResult, Table) {
    match provider([queryText])
    case Vectors(vs) =>
      if |vs| != 1 then (LaneResult([], CountMismatchError, QueryMismatch), table)
      else
        var fetched := FetchedFor(table, records, storage);
        var needed := Needed(records, fetched, |vs[0]|, config, env);
        if needed == [] then Finish(records, vs[0], fetched, [], table, storage, config, env, roundF32)
        else
          (match provider(TextsAt(records, needed))
           case Vectors(computed) =>
             if |computed| != |needed|
             then (LaneResult([], CountMismatchError, FailedPlan(records, fetched, |vs[0]|, config, env)), table)
             else Finish(records, vs[0], fetched, computed, table, storage, config, env, roundF32)
           case other => (LaneResult([], EmbeddingError(other), FailedPlan(records, fetched, |vs[0]|, config, env)),
                          table))
    case other => (LaneResult([], EmbeddingError(other), QueryFailed(|records|)), table)
  }

  // ----- the code

  method BuildKeys(records: seq<Record>) returns (keys: seq<RowKey>)
    ensures keys == RecordKeys(records)
  {
    keys := [];
    for i := 0 to |records|
      invariant |keys| == i && forall j | 0 <= j < i :: keys[j] == RecordKey(records[j])
    {
      keys := keys + [(records[i].candidate.source, records[i].candidate.itemId)];
    }
  }

  /** `hit_vectors` after the first n records. */
  ghost predicate HoldsHits(hitVectors: map<nat, Vector>, records: seq<Record>, fetched: map<RowKey, SidecarRow>,
                            dimension: int, config: Config, env: Env, n: nat)
    requires n <= |records|
  {
    && (forall i :: i in hitVectors <==> 0 <= i < n && IsHit(records[i], fetched, dimension, config, env))
    && (forall i | 0 <= i < n && IsHit(records[i], fetched, dimension, config, env) ::
          hitVectors[i] == fetched[RecordKey(records[i])].vector)
  }

  method Classify(records: seq<Record>, fetched: map<RowKey, SidecarRow>, dimension: int, config: Config, env: Env)
    returns (misses: seq<nat>, stale: seq<nat>, hitVectors: map<nat, Vector>)
    ensures misses == MissIndices(records, fetched, |records|)
    ensures stale == StaleIndices(records, fetched, dimension, config, env, |records|)
    ensures HoldsHits(hitVectors, records, fetched, dimension, config, env, |records|)
  {
    misses, stale, hitVectors := [], [], map[];
    for i := 0 to |records|
      invariant misses == MissIndices(records, fetched, i)
      invariant stale == StaleIndices(records, fetched, dimension, config, env, i)
      invariant HoldsHits(hitVectors, records, fetched, dimension, config, env, i)
    {
      var record := records[i];
      var key := RecordKey(record);
      if key !in fetched {
        misses := misses + [i];
        continue;
      }
      var row := fetched[key];
      var valid :=
        IsRowValidFor(row, env.hash(record.text), TextBuilder(record), config.providerName, config.modelName,
                      dimension);
      assert valid <==> IsHit(record, fetched, dimension, config, env);
      if valid {
        hitVectors := hitVectors[i := row.vector];
      } else {
        stale := stale + [i];
      }
    }
  }

  lemma HitCount(hitVectors: map<nat, Vector>, records: seq<Record>, fetched: map<RowKey, SidecarRow>,
                 dimension: int, config: Config, env: Env)
    requires HoldsHits(hitVectors, records, fetched, dimension, config, env, |records|)
    ensures |hitVectors| == |HitIndices(records, fetched, dimension, config, env, |records|)|
  {
    var hits := HitIndices(records, fetched, dimension, config, env, |records|);
    HitIndicesAre(records, fetched, dimension, config, env, |records|);
    DictCount(hitVectors, hits);
  }

  method BuildRows(records: seq<Record>, indices: seq<nat>, computed: seq<Vector>, dimension: int, now: string,
                   config: Config, env: Env)
    returns (rows: seq<SidecarRow>)
    requires |indices| == |computed| && forall j | 0 <= j < |indices| :: indices[j] < |records|
    ensures rows == RowsFor(records, indices, computed, dimension, now, config, env)
  {
    rows := [];
    for j := 0 to |indices|
      invariant |rows| == j
      invariant forall k | 0 <= k < j ::
                  rows[k] == RowFor(records[indices[k]], computed[k], dimension, now, config, env)
    {
      rows := rows + [RowFor(records[indices[j]], computed[j], dimension, now, config, env)];
    }
  }

  method ZipDict(indices: seq<nat>, values: seq<Vector>) returns (r: map<nat, Vector>)
    requires |indices| == |values| && Distinct(indices)
    ensures forall i | i in indices :: i in r && r[i] == values[IndexOf(indices, i)]
  {
    r := map[];
    for j := 0 to |indices|
      invariant forall k | 0 <= k < j :: indices[k] in r && r[indices[k]] == values[k]
    {
      r := r[indices[j] := values[j]];
    }
  }

  /** `dict(zip(to_embed_indices, computed))`, then one vector per record. */
  method GatherVectors(records: seq<Record>, fetched: map<RowKey, SidecarRow>, hitVectors: map<nat, Vector>,
                       needed: seq<nat>, computed: seq<Vector>, dimension: int, config: Config, env: Env)
    returns (vectors: seq<Vector>)
    requires needed == Needed(records, fetched, dimension, config, env) && |needed| == |computed|
    requires HoldsHits(hitVectors, records, fetched, dimension, config, env, |records|)
    ensures vectors == RecordVectors(records, fetched, computed, dimension, config, env)
  {
    var computedByIndex := ZipDict(needed, computed);
    vectors := [];
    for i := 0 to |records|
      invariant |vectors| == i
      invariant forall j | 0 <= j < i ::
                  vectors[j] == VectorOf(records, fetched, needed, computed, dimension, config, env, j)
    {
      var vector;
      if i in hitVectors {
        vector := hitVectors[i];
      } else {
        vector := computedByIndex[i];
      }
      vectors := vectors + [vector];
    }
  }

  /** The last part of a run: store the new rows, collect the vectors, rank. */
  method WriteAndRank(store: SidecarStore, user: string, records: seq<Record>, queryVector: Vector, needed: seq<nat>,
                      computed: seq<Vector>, fetched: map<RowKey, SidecarRow>, hitVectors: map<nat, Vector>,
                      staleCount: nat, missCount: nat, storage: Storage, config: Config, env: Env)
    returns (r: LaneResult)
    requires needed == Needed(records, fetched, |queryVector|, config, env) && |needed| == |computed|
    requires staleCount == |StaleIndices(records, fetched, |queryVector|, config, env, |records|)|
    requires missCount == |MissIndices(records, fetched, |records|)|
    requires HoldsHits(hitVectors, records, fetched, |queryVector|, config, env, |records|)
    modifies store
    ensures (r, store.TableOf(user))
         == Finish(records, queryVector, fetched, computed, old(store.TableOf(user)), storage, config, env,
                   store.roundF32)
    ensures forall u | u != user :: store.TableOf(u) == old(store.TableOf(u))
  {
    var rows := BuildRows(records, needed, computed, |queryVector|, storage.now, config, env);
    var written := store.UpsertMany(user, rows, Committed(storage, |rows|));
    var vectors := GatherVectors(records, fetched, hitVectors, needed, computed, |queryVector|, config, env);
    var ranked := RankRecords(records, queryVector, vectors, config, env);
    HitCount(hitVectors, records, fetched, |queryVector|, config, env);
    r := LaneResult(TakePy(ranked, config.topK), NoError,
                    IndexUsed(|records|, |hitVectors|, staleCount, missCount,
                              if written then |rows| else 0, if written then 0 else |rows|));
  }

  method RunWithIndex(store: SidecarStore, user: string, records: seq<Record>, queryText: string, provider: Provider,
                      storage: Storage, config: Config, env: Env)
    returns (r: LaneResult)
    modifies store
    ensures (r, store.TableOf(user))
         == RunWithSidecar(old(store.TableOf(user)), records, queryText, provider, storage, config, env, store.roundF32)
    ensures forall u | u != user :: store.TableOf(u) == old(store.TableOf(u))
  {
    var queried := provider([queryText]);
    if !queried.Vectors? {
      return LaneResult([], EmbeddingError(queried), QueryFailed(|records|));
    }
    if |queried.vectors| != 1 {
      return LaneResult([], CountMismatchError, QueryMismatch);
    }
    var queryVector := queried.vectors[0];

    var keys := BuildKeys(records);
    var fetched := store.FetchMany(user, keys, storage.readable);
    var misses, stale, hitVectors := Classify(records, fetched, |queryVector|, config, env);
    var needed := misses + stale;
    assert needed == Needed(records, fetched, |queryVector|, config, env);

    var computed: seq<Vector> := [];
    if needed != [] {
      var failed := EmbeddingFailed(|records|, |hitVectors|, |stale|, |misses|);
      HitCount(hitVectors, records, fetched, |queryVector|, config, env);
      var answered := provider(TextsAt(records, needed));
      if !answered.Vectors? {
        return LaneResult([], EmbeddingError(answered), failed);
      }
      if |answered.vectors| != |needed| {
        return LaneResult([], CountMismatchError, failed);
      }
      computed := answered.vectors;
    }
    r := WriteAndRank(store, user, records, queryVector, needed, computed, fetched, hitVectors, |stale|, |misses|,
                      storage, config, env);
  }

  // ----- the main results

  /** A row valid for a text's key under this configuration, with whatever dimension, holds that text's embedding.
      Rows that do not decode, are of another builder, provider or model, or hashed from other texts may hold
      anything. */
  ghost predicate Sound(table: Table, config: Config, env: Env, f: string -> Vector) {
    forall k, text: string {:trigger table[k], env.hash(text)} |
      k in table && ValidFor(k, table[k], text, config, env) ::
      table[k].blob == f(text)
  }

  predicate ValidFor(key: RowKey, stored: StoredRow, text: string, config: Config, env: Env) {
    && |stored.blob| == stored.row.dimension
    && stored.row.textHash == env.hash(text)
    && stored.row.textBuilder == (if key.0 == "profile" then "profile_item_text:v1" else "episode_slice_text:v1")
    && stored.row.embeddingProvider == config.providerName
    && stored.row.embeddingModel == config.modelName
  }

  /** Text hashes do not collide, and embeddings consist of float32 values. */
  ghost predicate Lawful(env: Env, f: string -> Vector, roundF32: real -> real) {
    && (forall a, b :: env.hash(a) == env.hash(b) ==> a == b)
    && (forall text, i | 0 <= i < |f(text)| :: roundF32(f(text)[i]) == f(text)[i])
  }

  /** The vectors a faithful provider computes for the records that need one. */
  function Computed(records: seq<Record>, fetched: map<RowKey, SidecarRow>, dimension: int, config: Config, env: Env,
                    f: string -> Vector): (r: seq<Vector>)
    ensures |r| == |Needed(records, fetched, dimension, config, env)|
  {
    Mapped(f, TextsAt(records, Needed(records, fetched, dimension, config, env)))
  }

  lemma {:induction false} PlanPartitions(records: seq<Record>, fetched: map<RowKey, SidecarRow>, dimension: int,
                                          config: Config, env: Env, n: nat)
    requires n <= |records|
    ensures |MissIndices(records, fetched, n)| + |StaleIndices(records, fetched, dimension, config, env, n)|
            + |HitIndices(records, fetched, dimension, config, env, n)| == n
  {
    if n == 0 {
    } else {
      PlanPartitions(records, fetched, dimension, config, env, n - 1);
    }
  }

  /** A hit's stored vector is the embedding of the record's text. */
  lemma HitIsEmbedding(table: Table, records: seq<Record>, storage: Storage, config: Config, env: Env,
                       dimension: int, f: string -> Vector, i: nat)
    requires Sound(table, config, env, f) && i < |records|
    requires IsHit(records[i], FetchedFor(table, records, storage), dimension, config, env)
    ensures FetchedFor(table, records, storage)[RecordKey(records[i])].vector == f(records[i].text)
    ensures |f(records[i].text)| == dimension
  {
    var key := RecordKey(records[i]);
    assert ValidFor(key, table[key], records[i].text, config, env);
    assert table[key].blob == f(records[i].text);
  }

  /** Every record's vector is its text's embedding, however hits, stale rows and misses mix. */
  lemma VectorsAreEmbeddings(table: Table, records: seq<Record>, storage: Storage, config: Config, env: Env,
                             dimension: int, f: string -> Vector)
    requires Sound(table, config, env, f)
    ensures var fetched := FetchedFor(table, records, storage);
            RecordVectors(records, fetched, Computed(records, fetched, dimension, config, env, f), dimension, config,
                          env)
            == Mapped(f, Texts(records))
  {
    var fetched := FetchedFor(table, records, storage);
    var vectors :=
      RecordVectors(records, fetched, Computed(records, fetched, dimension, config, env, f), dimension, config, env);
    forall i | 0 <= i < |records| ensures vectors[i] == f(records[i].text) {
      if IsHit(records[i], fetched, dimension, config, env) {
        HitIsEmbedding(table, records, storage, config, env, dimension, f, i);
      }
    }
  }

  /** With a faithful provider a run always gets through: no error, every missing text embedded. */
  lemma FaithfulRun(table: Table, records: seq<Record>, queryText: string, provider: Provider, storage: Storage,
                    config: Config, env: Env, roundF32: real -> real, f: string -> Vector)
    requires Faithful(provider, f)
    ensures var q, fetched := f(queryText), FetchedFor(table, records, storage);
            RunWithSidecar(table, records, queryText, provider, storage, config, env, roundF32)
            == Finish(records, q, fetched, Computed(records, fetched, |q|, config, env, f), table, storage, config,
                      env, roundF32)
  {
    var q, fetched := f(queryText), FetchedFor(table, records, storage);
    var needed := Needed(records, fetched, |q|, config, env);
    assert provider([queryText]) == Vectors(Mapped(f, [queryText]));
    assert provider(TextsAt(records, needed)) == Vectors(Mapped(f, TextsAt(records, needed)));
    if needed == [] { assert Computed(records, fetched, |q|, config, env, f) == []; }
  }

  /** The index changes nothing: with a faithful provider and a sound table both paths return the
      same candidates and no error, whether or not the database can be read or written. */
  lemma SidecarAgrees(table: Table, records: seq<Record>, queryText: string, provider: Provider, storage: Storage,
                      config: Config, env: Env, roundF32: real -> real, f: string -> Vector)
    requires Faithful(provider, f) && Sound(table, config, env, f)
    ensures var plain := RunWithoutSidecar(records, queryText, provider, config, env);
            var indexed := RunWithSidecar(table, records, queryText, provider, storage, config, env, roundF32).0;
            && indexed.error == plain.error == NoError
            && indexed.candidates == plain.candidates
            && indexed.telemetry.IndexUsed?
            && indexed.telemetry.candidates == |records|
            && indexed.telemetry.hits + indexed.telemetry.stale + indexed.telemetry.misses == |records|
  {
    var q := f(queryText);
    var all := Mapped(f, [queryText] + Texts(records));
    assert provider([queryText] + Texts(records)) == Vectors(all);
    assert all[0] == q && all[1..] == Mapped(f, Texts(records));
    FaithfulRun(table, records, queryText, provider, storage, config, env, roundF32, f);
    VectorsAreEmbeddings(table, records, storage, config, env, |q|, f);
    PlanPartitions(records, FetchedFor(table, records, storage), |q|, config, env, |records|);
  }

  ghost predicate Honest(row: SidecarRow, env: Env, f: string -> Vector) {
    exists text :: row.textHash == env.hash(text) && row.vector == f(text)
  }

  /** Rows that hold the embedding of the text they are hashed from. */
  ghost predicate HonestRows(rows: seq<SidecarRow>, env: Env, f: string -> Vector) {
    forall j | 0 <= j < |rows| :: Honest(rows[j], env, f)
  }

  lemma NewRowsAreHonest(records: seq<Record>, fetched: map<RowKey, SidecarRow>, dimension: int, now: string,
                         config: Config, env: Env, f: string -> Vector)
    ensures HonestRows(NewRows(records, fetched, Computed(records, fetched, dimension, config, env, f), dimension,
                               now, config, env), env, f)
  {
    var needed := Needed(records, fetched, dimension, config, env);
    var rows :=
      NewRows(records, fetched, Computed(records, fetched, dimension, config, env, f), dimension, now, config, env);
    forall j | 0 <= j < |rows| ensures Honest(rows[j], env, f) {
      assert rows[j].textHash == env.hash(records[needed[j]].text);
    }
  }

  lemma UpsertStaysSound(table: Table, row: SidecarRow, config: Config, env: Env, f: string -> Vector,
                         roundF32: real -> real)
    requires Sound(table, config, env, f) && Lawful(env, f, roundF32) && Honest(row, env, f)
    ensures Sound(UpsertOne(table, row, roundF32), config, env, f)
  {
    var text :| row.textHash == env.hash(text) && row.vector == f(text);
    var after := UpsertOne(table, row, roundF32);
    assert EncodeVector(row.vector, roundF32) == f(text);
    forall k, t: string | k in after && ValidFor(k, after[k], t, config, env)
      ensures after[k].blob == f(t)
    {
      if k == KeyOfRow(row) {
        assert env.hash(t) == env.hash(text);
      } else {
        assert after[k] == table[k];
      }
    }
  }

  lemma {:induction false} UpsertsStaySound(table: Table, rows: seq<SidecarRow>, config: Config, env: Env,
                                            f: string -> Vector, roundF32: real -> real)
    requires Sound(table, config, env, f) && Lawful(env, f, roundF32)
    requires HonestRows(rows, env, f)
    ensures Sound(Upserted(table, rows, roundF32), config, env, f)
  {
    if rows == [] {
    } else {
      var n := |rows| - 1;
      assert forall j | 0 <= j < n :: rows[..n][j] == rows[j];
      UpsertsStaySound(table, rows[..n], config, env, f, roundF32);
      UpsertStaysSound(Upserted(table, rows[..n], roundF32), rows[n], config, env, f, roundF32);
    }
  }

  /** Whatever mix of hits, stale rows and misses a run meets, and however many of its rows get
      committed, the table it leaves is sound again. */
  lemma RunStaysSound(table: Table, records: seq<Record>, queryText: string, provider: Provider, storage: Storage,
                      config: Config, env: Env, roundF32: real -> real, f: string -> Vector)
    requires Faithful(provider, f) && Lawful(env, f, roundF32) && Sound(table, config, env, f)
    ensures Sound(RunWithSidecar(table, records, queryText, provider, storage, config, env, roundF32).1, config, env, f)
  {
    var q, fetched := f(queryText), FetchedFor(table, records, storage);
    var rows :=
      NewRows(records, fetched, Computed(records, fetched, |q|, config, env, f), |q|, storage.now, config, env);
    var committed := Committed(storage, |rows|);
    FaithfulRun(table, records, queryText, provider, storage, config, env, roundF32, f);
    NewRowsAreHonest(records, fetched, |q|, storage.now, config, env, f);
    assert forall j | 0 <= j < committed :: rows[..committed][j] == rows[j];
    UpsertsStaySound(table, rows[..committed], config, env, f, roundF32);
  }

  // ----- a second run

  ghost predicate DistinctKeys(records: seq<Record>) {
    forall i, j | 0 <= i < j < |records| :: RecordKey(records[i]) != RecordKey(records[j])
  }

  predicate Writes(rows: seq<SidecarRow>, key: RowKey) {
    exists j | 0 <= j < |rows| :: KeyOfRow(rows[j]) == key
  }

  lemma {:induction false} UpsertedElsewhere(table: Table, rows: seq<SidecarRow>, roundF32: real -> real, key: RowKey)
    requires !Writes(rows, key)
    ensures key in Upserted(table, rows, roundF32) <==> key in table
    ensures key in table ==> Upserted(table, rows, roundF32)[key] == table[key]
  {
    if rows == [] {
    } else {
      var n := |rows| - 1;
      assert forall j | 0 <= j < n :: rows[..n][j] == rows[j];
      assert KeyOfRow(rows[n]) != key;
      UpsertedElsewhere(table, rows[..n], roundF32, key);
    }
  }

  /** A key that is written ends up with one of the rows written to it. */
  lemma {:induction false} UpsertedAt(table: Table, rows: seq<SidecarRow>, roundF32: real -> real, key: RowKey)
    returns (j: nat, created: string)
    requires Writes(rows, key)
    ensures j < |rows| && KeyOfRow(rows[j]) == key
    ensures key in Upserted(table, rows, roundF32)
    ensures Upserted(table, rows, roundF32)[key]
            == StoredRow(rows[j].(createdAt := created), EncodeVector(rows[j].vector, roundF32))
  {
    var n := |rows| - 1;
    var before := Upserted(table, rows[..n], roundF32);
    if KeyOfRow(rows[n]) == key {
      j := n;
      created := if key in before then before[key].row.createdAt else rows[n].createdAt;
    } else {
      var k :| 0 <= k < |rows| && KeyOfRow(rows[k]) == key;
      assert rows[..n][k] == rows[k];
      j, created := UpsertedAt(table, rows[..n], roundF32, key);
    }
  }

  /** What a rerun finds for record i. */
  ghost predicate HitOnRerun(table: Table, records: seq<Record>, i: nat, dimension: int, config: Config, env: Env)
    requires i < |records|
  {
    IsHit(records[i], Fetched(table, RecordKeys(records)), dimension, config, env)
  }

  /** A hit's key is not written: with distinct keys only other records' keys are. */
  lemma HitNotWritten(records: seq<Record>, fetched: map<RowKey, SidecarRow>, computed: seq<Vector>, now: string,
                      dimension: int, config: Config, env: Env, i: nat)
    requires DistinctKeys(records) && i < |records|
    requires IsHit(records[i], fetched, dimension, config, env)
    requires |computed| == |Needed(records, fetched, dimension, config, env)|
    ensures !Writes(NewRows(records, fetched, computed, dimension, now, config, env), RecordKey(records[i]))
  {
    var needed := Needed(records, fetched, dimension, config, env);
    var rows := NewRows(records, fetched, computed, dimension, now, config, env);
    forall j | 0 <= j < |rows| ensures KeyOfRow(rows[j]) != RecordKey(records[i]) {
      assert needed[j] in needed;
      assert needed[j] != i;
    }
  }

  /** What a row written for record i, and read back, says about validity. */
  lemma WrittenRowValid(after: Table, records: seq<Record>, i: nat, row: SidecarRow, roundF32: real -> real,
                        dimension: int, config: Config, env: Env)
    requires i < |records|
    requires RecordKey(records[i]) in after
    requires after[RecordKey(records[i])] == StoredRow(row, EncodeVector(row.vector, roundF32))
    requires row.textHash == env.hash(records[i].text) && row.textBuilder == TextBuilder(records[i])
    requires row.embeddingProvider == config.providerName && row.embeddingModel == config.modelName
    requires row.dimension == dimension
    ensures HitOnRerun(after, records, i, dimension, config, env) <==> |row.vector| == dimension
  {
    assert RecordKeys(records)[i] == RecordKey(records[i]);
  }

  lemma HitStays(table: Table, records: seq<Record>, rows: seq<SidecarRow>, config: Config, env: Env,
                 roundF32: real -> real, dimension: nat, i: nat)
    requires i < |records|
    requires IsHit(records[i], Fetched(table, RecordKeys(records)), dimension, config, env)
    requires !Writes(rows, RecordKey(records[i]))
    ensures HitOnRerun(Upserted(table, rows, roundF32), records, i, dimension, config, env)
  {
    var key := RecordKey(records[i]);
    assert RecordKeys(records)[i] == key;
    UpsertedElsewhere(table, rows, roundF32, key);
  }

  lemma EmbeddedBecomesRow(table: Table, records: seq<Record>, needed: seq<nat>, rows: seq<SidecarRow>, now: string,
                           config: Config, env: Env, roundF32: real -> real, f: string -> Vector, dimension: nat,
                           i: nat)
    requires DistinctKeys(records) && i < |records| && i in needed
    requires forall j | 0 <= j < |needed| :: needed[j] < |records|
    requires rows == RowsFor(records, needed, Mapped(f, TextsAt(records, needed)), dimension, now, config, env)
    ensures HitOnRerun(Upserted(table, rows, roundF32), records, i, dimension, config, env)
            <==> |f(records[i].text)| == dimension
  {
    var key := RecordKey(records[i]);
    assert KeyOfRow(rows[IndexOf(needed, i)]) == key;
    var j, created := UpsertedAt(table, rows, roundF32, key);
    assert RecordKey(records[needed[j]]) == key;
    assert needed[j] == i;
    WrittenRowValid(Upserted(table, rows, roundF32), records, i, rows[j].(createdAt := created), roundF32, dimension,
                    config, env);
  }

  /** After a run that could read and committed every row, an immediate rerun finds record i
      valid exactly when its embedding has the query's dimension. */
  lemma RerunHits(table: Table, records: seq<Record>, queryText: string, provider: Provider, storage: Storage,
                  config: Config, env: Env, roundF32: real -> real, f: string -> Vector, i: nat)
    requires Faithful(provider, f) && Sound(table, config, env, f)
    requires DistinctKeys(records) && i < |records|
    requires storage.readable && storage.committed >= |records|
    ensures var after := RunWithSidecar(table, records, queryText, provider, storage, config, env, roundF32).1;
            HitOnRerun(after, records, i, |f(queryText)|, config, env) <==> |f(records[i].text)| == |f(queryText)|
  {
    FullCommit(table, records, queryText, provider, storage, config, env, roundF32, f);
    RerunOutcome(table, records, storage, config, env, roundF32, f, |f(queryText)|, i);
  }

  function FullTable(table: Table, records: seq<Record>, dimension: nat, storage: Storage, config: Config, env: Env,
                     roundF32: real -> real, f: string -> Vector): Table {
    var fetched := FetchedFor(table, records, storage);
    Upserted(table,
             NewRows(records, fetched, Computed(records, fetched, dimension, config, env, f), dimension, storage.now,
                     config, env), roundF32)
  }

  lemma FullCommit(table: Table, records: seq<Record>, queryText: string, provider: Provider, storage: Storage,
                   config: Config, env: Env, roundF32: real -> real, f: string -> Vector)
    requires Faithful(provider, f) && storage.committed >= |records|
    ensures RunWithSidecar(table, records, queryText, provider, storage, config, env, roundF32).1
            == FullTable(table, records, |f(queryText)|, storage, config, env, roundF32, f)
  {
    var q, fetched := f(queryText), FetchedFor(table, records, storage);
    var rows :=
      NewRows(records, fetched, Computed(records, fetched, |q|, config, env, f), |q|, storage.now, config, env);
    FaithfulRun(table, records, queryText, provider, storage, config, env, roundF32, f);
    PlanPartitions(records, fetched, |q|, config, env, |records|);
    assert rows[..|rows|] == rows;
  }

  lemma RerunOutcome(table: Table, records: seq<Record>, storage: Storage, config: Config, env: Env,
                     roundF32: real -> real, f: string -> Vector, dimension: nat, i: nat)
    requires Sound(table, config, env, f) && DistinctKeys(records) && i < |records| && storage.readable
    ensures HitOnRerun(FullTable(table, records, dimension, storage, config, env, roundF32, f), records, i, dimension,
                       config, env)
            <==> |f(records[i].text)| == dimension
  {
    var fetched := FetchedFor(table, records, storage);
    var computed := Computed(records, fetched, dimension, config, env, f);
    var rows := NewRows(records, fetched, computed, dimension, storage.now, config, env);
    if IsHit(records[i], fetched, dimension, config, env) {
      HitIsEmbedding(table, records, storage, config, env, dimension, f, i);
      HitNotWritten(records, fetched, computed, storage.now, dimension, config, env, i);
      HitStays(table, records, rows, config, env, roundF32, dimension, i);
    } else {
      EmbeddedBecomesRow(table, records, Needed(records, fetched, dimension, config, env), rows, storage.now, config,
                         env, roundF32, f, dimension, i);
    }
  }
}
