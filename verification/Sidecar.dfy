/** The persistent embedding index as a keyed table per user: fetch, upsert, delete, and the test
    that decides whether a stored row may stand in for a fresh embedding. */
module Sidecar {
  import opened EmbeddingCache

  const PROFILE_TEXT_BUILDER := "profile_item_text:v1"
  const SLICE_TEXT_BUILDER := "episode_slice_text:v1"

  type RowKey = (string, string)

  /** A row as the lane sees it: decoded. */
  datatype SidecarRow = SidecarRow(
    source: string,
    itemId: string,
    textHash: string,
    textBuilder: string,
    embeddingProvider: string,
    embeddingModel: string,
    dimension: int,
    vector: Vector,
    bucket: string,
    createdAt: string,
    updatedAt: string
  )

  /** A row as it is stored: the vector encoded as a run of float32 components. */
  datatype StoredRow = StoredRow(row: SidecarRow, blob: seq<real>)

  type Table = map<RowKey, StoredRow>

  function KeyOfRow(row: SidecarRow): RowKey { (row.source, row.itemId) }

  predicate IsRowValidFor(row: SidecarRow, expectedHash: string, expectedTextBuilder: string,
                          expectedProvider: string, expectedModel: string, expectedDimension: int) {
    && row.textHash == expectedHash
    && row.textBuilder == expectedTextBuilder
    && row.embeddingProvider == expectedProvider
    && row.embeddingModel == expectedModel
    && row.dimension == expectedDimension
    && |row.vector| == expectedDimension
  }

  function EncodeVector(vector: Vector, roundF32: real -> real): (blob: seq<real>)
    ensures |blob| == |vector| && forall i | 0 <= i < |blob| :: blob[i] == roundF32(vector[i])
  {
    seq(|vector|, i requires 0 <= i < |vector| => roundF32(vector[i]))
  }

  /** Decoding succeeds exactly when the blob holds `dimension` components. */
  predicate Decodable(stored: StoredRow) { |stored.blob| == stored.row.dimension }

  function Decoded(stored: StoredRow): SidecarRow
    requires Decodable(stored)
  {
    stored.row.(vector := stored.blob)
  }

  /** A vector survives storage exactly when each component is a float32 value. */
  lemma StorageRoundTrip(row: SidecarRow, roundF32: real -> real)
    ensures var stored := StoredRow(row, EncodeVector(row.vector, roundF32));
            && (Decodable(stored) <==> row.dimension == |row.vector|)
            && (Decodable(stored) ==>
                  (Decoded(stored) == row
                   <==> forall i | 0 <= i < |row.vector| :: roundF32(row.vector[i]) == row.vector[i]))
  {
    var blob := EncodeVector(row.vector, roundF32);
    if forall i | 0 <= i < |row.vector| :: roundF32(row.vector[i]) == row.vector[i] {
      assert blob == row.vector;
    } else {
      var i :| 0 <= i < |row.vector| && roundF32(row.vector[i]) != row.vector[i];
      assert blob[i] != row.vector[i];
    }
  }

  function Fetched(table: Table, keys: seq<RowKey>): map<RowKey, SidecarRow> {
    map k | k in keys && k in table && Decodable(table[k]) :: Decoded(table[k])
  }

  /** On a conflict everything but the creation time is replaced. */
  function UpsertOne(table: Table, row: SidecarRow, roundF32: real -> real): Table {
    var key := KeyOfRow(row);
    var kept := if key in table then row.(createdAt := table[key].row.createdAt) else row;
    table[key := StoredRow(kept, EncodeVector(row.vector, roundF32))]
  }

  function Upserted(table: Table, rows: seq<SidecarRow>, roundF32: real -> real): Table {
    if rows == [] then table
    else UpsertOne(Upserted(table, rows[..|rows| - 1], roundF32), rows[|rows| - 1], roundF32)
  }

  /** A row once there keeps its creation time, whatever is upserted, and no other row appears than those written. */
  lemma {:induction false} UpsertsKeepCreation(table: Table, rows: seq<SidecarRow>, roundF32: real -> real, key: RowKey)
    ensures var after := Upserted(table, rows, roundF32);
      && (key in after <==> key in table || exists row | row in rows :: (row.source, row.itemId) == key)
      && (key in table ==> after[key].row.createdAt == table[key].row.createdAt)
  {
    if rows == [] {
    } else {
      var n := |rows| - 1;
      UpsertsKeepCreation(table, rows[..n], roundF32, key);
      assert rows == rows[..n] + [rows[n]];
    }
  }

  /** The last row written under a key is what lies there, with its components rounded, but for the creation time. */
  lemma {:induction false} LastRowWins(table: Table, rows: seq<SidecarRow>, roundF32: real -> real, j: nat)
    requires j < |rows|
    requires forall k | j < k < |rows| :: (rows[k].source, rows[k].itemId) != (rows[j].source, rows[j].itemId)
    ensures var after, key := Upserted(table, rows, roundF32), (rows[j].source, rows[j].itemId);
      && key in after
      && after[key].row == rows[j].(createdAt := after[key].row.createdAt)
      && |after[key].blob| == |rows[j].vector|
      && forall i | 0 <= i < |rows[j].vector| :: after[key].blob[i] == roundF32(rows[j].vector[i])
  {
    var n := |rows| - 1;
    if j == n {
    } else {
      LastRowWins(table, rows[..n], roundF32, j);
    }
  }

  class SidecarStore {
    const roundF32: real -> real
    var tables: map<string, Table>

    ghost function TableOf(user: string): Table
      reads this
    {
      if user in tables then tables[user] else map[]
    }

    constructor (roundF32: real -> real)
      ensures this.roundF32 == roundF32 && tables == map[]
    {
      this.roundF32, tables := roundF32, map[];
    }

    /** `readable` is false when the database cannot be opened or queried. */
    method FetchMany(user: string, keys: seq<RowKey>, readable: bool) returns (rows: map<RowKey, SidecarRow>)
      ensures rows == if readable then Fetched(TableOf(user), keys) else map[]
    {
      rows := map[];
      if keys == [] || user !in tables || !readable {
        return;
      }
      var table := tables[user];
      for i := 0 to |keys|
        invariant rows == Fetched(table, keys[..i])
      {
        assert keys[..i + 1] == keys[..i] + [keys[i]];
        if keys[i] in table && Decodable(table[keys[i]]) {
          rows := rows[keys[i] := Decoded(table[keys[i]])];
        }
      }
      assert keys[..|keys|] == keys;
    }

    /** Each row is its own transaction: `applied` of them are committed before an error, if any. */
    method UpsertMany(user: string, rows: seq<SidecarRow>, applied: nat) returns (ok: bool)
      requires applied <= |rows|
      modifies this
      ensures ok <==> applied == |rows|
      ensures TableOf(user) == Upserted(old(TableOf(user)), rows[..applied], roundF32)
      ensures forall u | u != user :: TableOf(u) == old(TableOf(u))
    {
      ok := applied == |rows|;
      if rows == [] {
        return;
      }
      var table: Table := if user in tables then tables[user] else map[];
      ghost var start := table;
      for i := 0 to applied
        invariant table == Upserted(start, rows[..i], roundF32)
      {
        assert rows[..i + 1][..i] == rows[..i];
        table := UpsertOne(table, rows[i], roundF32);
      }
      tables := tables[user := table];
    }

    method DeleteForItem(user: string, source: string, itemId: string)
      modifies this
      ensures TableOf(user) == old(TableOf(user)) - {(source, itemId)}
      ensures forall u | u != user :: TableOf(u) == old(TableOf(u))
    {
      if user !in tables {
        return;
      }
      tables := tables[user := tables[user] - {(source, itemId)}];
    }
  }
}
