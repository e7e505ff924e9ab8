/**
 * The summoners table and the statements the account store runs on it:
 * the column-oriented batch update and batch upsert, the lookups by
 * player id, and the single-row update and insert behind the
 * find-then-update-or-insert dispatch.
 *
 * The relational store is an abstract table: a sequence of rows in
 * physical order, each with its surrogate `id`, plus the next value of the
 * id sequence. `puuid` carries a unique index (the upsert names it as its
 * conflict target) and `id` is the primary key. A statement that fails
 * leaves the table as it was.
 */
module Summoners {
  import opened Wrappers
  import opened Ints

  type Puuid = string

  /** A `TIMESTAMP` value, in whole seconds since the epoch. */
  type Timestamp = int

  /** The store errors the statements below can raise. */
  datatype DbError =
    | NotFound              // `fetch_one` found no row
    | UniqueViolation       // a second row with the same puuid
    | NotNullViolation      // a NULL bound into a NOT NULL column
    | OutOfRange            // an `i64` in an `INT[]` cast that does not fit
    | CardinalityViolation  // ON CONFLICT DO UPDATE reaching one row twice

  /** A staging record for one account, as the ingestion pipeline builds it. */
  datatype TempSummoner = TempSummoner(
    gameName: string,
    tagLine: string,
    puuid: Puuid,
    platform: string,
    summonerLevel: int,     // i64
    profileIconId: I32,
    updatedAt: Timestamp)

  /** One row of `summoners`; `updated_at` may be NULL. */
  datatype SummonerRow = SummonerRow(
    id: int,
    gameName: string,
    tagLine: string,
    puuid: Puuid,
    platform: string,
    summonerLevel: int,
    profileIconId: int,
    updatedAt: Option<Timestamp>)

  datatype Table = Table(rows: seq<SummonerRow>, nextId: int)

  /** The table's constraints: unique ids, unique puuids, every id drawn from the sequence. */
  ghost predicate Valid(t: Table) {
    && (forall i, j | 0 <= i < j < |t.rows| :: t.rows[i].id != t.rows[j].id)
    && (forall i, j | 0 <= i < j < |t.rows| :: t.rows[i].puuid != t.rows[j].puuid)
    && (forall i | 0 <= i < |t.rows| :: t.rows[i].id < t.nextId)
  }

  /** The index of the first row with this puuid. */
  function RowIndex(rows: seq<SummonerRow>, puuid: Puuid): (r: Option<nat>)
    ensures r.Some? ==> r.value < |rows| && rows[r.value].puuid == puuid
                        && forall k | 0 <= k < r.value :: rows[k].puuid != puuid
    ensures r.None? ==> forall k | 0 <= k < |rows| :: rows[k].puuid != puuid
    decreases |rows|
  {
    if |rows| == 0 then None
    else if rows[0].puuid == puuid then Some(0)
    else match RowIndex(rows[1..], puuid)
      case None => None
      case Some(k) => Some(k + 1)
  }

  /** The row with this puuid, if any. */
  function Lookup(rows: seq<SummonerRow>, puuid: Puuid): Option<SummonerRow> {
    match RowIndex(rows, puuid)
    case None => None
    case Some(i) => Some(rows[i])
  }

  // ------------------------------------------------------------------ columns

  /** The seven arrays both batch statements bind, `$1` to `$7`. */
  datatype SummonerColumns = SummonerColumns(
    gameNames: seq<string>,
    tagLines: seq<string>,
    puuids: seq<Puuid>,
    platforms: seq<string>,
    summonerLevels: seq<int>,
    profileIconIds: seq<I32>,
    updatedAts: seq<Timestamp>)

  /** Transposes the batch into columns, one `map().collect()` per field. */
  function ToColumns(batch: seq<TempSummoner>): SummonerColumns {
    SummonerColumns(
      seq(|batch|, i requires 0 <= i < |batch| => batch[i].gameName),
      seq(|batch|, i requires 0 <= i < |batch| => batch[i].tagLine),
      seq(|batch|, i requires 0 <= i < |batch| => batch[i].puuid),
      seq(|batch|, i requires 0 <= i < |batch| => batch[i].platform),
      seq(|batch|, i requires 0 <= i < |batch| => batch[i].summonerLevel),
      seq(|batch|, i requires 0 <= i < |batch| => batch[i].profileIconId),
      seq(|batch|, i requires 0 <= i < |batch| => batch[i].updatedAt))
  }

  predicate Rectangular(c: SummonerColumns) {
    var n := |c.gameNames|;
    |c.tagLines| == n && |c.puuids| == n && |c.platforms| == n
    && |c.summonerLevels| == n && |c.profileIconIds| == n && |c.updatedAts| == n
  }

  /** An explicit `::VARCHAR(n)` cast, which silently keeps the first `n` characters. */
  function Truncate(s: string, n: nat): (r: string)
    ensures |r| <= n && r <= s
    ensures |s| <= n ==> r == s
  {
    if |s| <= n then s else s[..n]
  }

  /** One row of the `UNNEST` source, after the casts. */
  datatype StagedRow = StagedRow(
    gameName: string,
    tagLine: string,
    puuid: Puuid,
    platform: string,
    summonerLevel: int,
    profileIconId: int,
    updatedAt: Timestamp)

  /** The casts applied to one record's values. */
  function Stage(s: TempSummoner): StagedRow {
    StagedRow(Truncate(s.gameName, 16), Truncate(s.tagLine, 5), Truncate(s.puuid, 78),
              Truncate(s.platform, 4), s.summonerLevel, s.profileIconId, s.updatedAt)
  }

  /**
   * `UNNEST` over the cast arrays: row `i` takes entry `i` of every
   * array; the `$5::INT[]` cast of the `i64` levels fails if one does not fit.
   */
  function Unnest(c: SummonerColumns): Result<seq<StagedRow>, DbError>
    requires Rectangular(c)
  {
    var n := |c.gameNames|;
    if exists i | 0 <= i < n :: !InI32(c.summonerLevels[i]) then Err(OutOfRange)
    else Ok(seq(n, i requires 0 <= i < n =>
      StagedRow(Truncate(c.gameNames[i], 16), Truncate(c.tagLines[i], 5), Truncate(c.puuids[i], 78),
                Truncate(c.platforms[i], 4), c.summonerLevels[i], c.profileIconIds[i], c.updatedAts[i])))
  }

  /** A batch has a level outside `i32`. */
  predicate LevelOverflow(batch: seq<TempSummoner>) {
    exists i | 0 <= i < |batch| :: !InI32(batch[i].summonerLevel)
  }

  /**
   * Column alignment: the transposition builds seven arrays of the batch's
   * length, and unnesting them gives back, row by row, the cast records
   * in input order; the only failure is an `i64` level outside `i32`.
   */
  lemma UnnestColumns(batch: seq<TempSummoner>)
    ensures Rectangular(ToColumns(batch)) && |ToColumns(batch).gameNames| == |batch|
    ensures Unnest(ToColumns(batch)).Err? <==> LevelOverflow(batch)
    ensures Unnest(ToColumns(batch)).Err? ==> Unnest(ToColumns(batch)).error == OutOfRange
    ensures Unnest(ToColumns(batch)).Ok? ==>
      |Unnest(ToColumns(batch)).value| == |batch|
      && forall i | 0 <= i < |batch| :: Unnest(ToColumns(batch)).value[i] == Stage(batch[i])
  {
    var c := ToColumns(batch);
    var n := |batch|;
    assert forall i | 0 <= i < n :: c.summonerLevels[i] == batch[i].summonerLevel;
    if !LevelOverflow(batch) {
      assert !exists i | 0 <= i < n :: !InI32(c.summonerLevels[i]);
      var lhs := Unnest(c).value;
      forall i | 0 <= i < n
        ensures lhs[i] == Stage(batch[i])
      {
        assert c.gameNames[i] == batch[i].gameName && c.tagLines[i] == batch[i].tagLine;
        assert c.puuids[i] == batch[i].puuid && c.platforms[i] == batch[i].platform;
        assert c.profileIconIds[i] == batch[i].profileIconId && c.updatedAts[i] == batch[i].updatedAt;
      }
    } else {
      var i :| 0 <= i < n && !InI32(batch[i].summonerLevel);
      assert !InI32(c.summonerLevels[i]);
    }
  }

  /** The six columns both batch statements assign. */
  function Overwrite(row: SummonerRow, d: StagedRow): SummonerRow {
    row.(gameName := d.gameName, tagLine := d.tagLine, platform := d.platform,
         summonerLevel := d.summonerLevel, profileIconId := d.profileIconId, updatedAt := Some(d.updatedAt))
  }

  // -------------------------------------------------------------- bulk_update

  /** The index of the first staged row with this puuid. */
  function StagedIndex(staged: seq<StagedRow>, puuid: Puuid): (r: Option<nat>)
    ensures r.Some? ==> r.value < |staged| && staged[r.value].puuid == puuid
                        && forall k | 0 <= k < r.value :: staged[k].puuid != puuid
    ensures r.None? ==> forall k | 0 <= k < |staged| :: staged[k].puuid != puuid
    decreases |staged|
  {
    if |staged| == 0 then None
    else if staged[0].puuid == puuid then Some(0)
    else match StagedIndex(staged[1..], puuid)
      case None => None
      case Some(k) => Some(k + 1)
  }

  /**
   * `UPDATE … FROM (unnest …) WHERE summoners.puuid = data.puuid`: every
   * row with a matching puuid takes the six fields of a matching source
   * row. When several match, the store picks one; the model picks the first.
   */
  function ApplyUpdate(t: Table, staged: seq<StagedRow>): Table {
    t.(rows := seq(|t.rows|, i requires 0 <= i < |t.rows| =>
      match StagedIndex(staged, t.rows[i].puuid)
      case None => t.rows[i]
      case Some(j) => Overwrite(t.rows[i], staged[j])))
  }

  /** `bulk_update`. */
  function BulkUpdateStatement(t: Table, batch: seq<TempSummoner>): Result<Table, DbError> {
    UnnestColumns(batch);
    match Unnest(ToColumns(batch))
    case Err(e) => Err(e)
    case Ok(staged) => Ok(ApplyUpdate(t, staged))
  }

  /** The effect of the `UPDATE … FROM` on each row, in terms of the unnested rows. */
  lemma ApplyUpdateEffect(t: Table, staged: seq<StagedRow>)
    ensures var u := ApplyUpdate(t, staged);
      && |u.rows| == |t.rows| && u.nextId == t.nextId
      && (forall i | 0 <= i < |t.rows| :: u.rows[i].id == t.rows[i].id && u.rows[i].puuid == t.rows[i].puuid)
      && (forall i | 0 <= i < |t.rows| && (forall j | 0 <= j < |staged| :: staged[j].puuid != t.rows[i].puuid) ::
            u.rows[i] == t.rows[i])
      && (forall i, j | 0 <= i < |t.rows| && 0 <= j < |staged| && staged[j].puuid == t.rows[i].puuid
                        && (forall k | 0 <= k < j :: staged[k].puuid != t.rows[i].puuid) ::
            u.rows[i] == Overwrite(t.rows[i], staged[j]))
  {
    var u := ApplyUpdate(t, staged);
    forall i, j | 0 <= i < |t.rows| && 0 <= j < |staged| && staged[j].puuid == t.rows[i].puuid
                  && (forall k | 0 <= k < j :: staged[k].puuid != t.rows[i].puuid)
      ensures u.rows[i] == Overwrite(t.rows[i], staged[j])
    {
      assert StagedIndex(staged, t.rows[i].puuid).Some?;
    }
  }

  /**
   * `bulk_update` changes only rows whose puuid is in the batch, overwrites
   * their six fields from the first matching record without comparing
   * timestamps, keeps every id and puuid, and inserts nothing.
   */
  lemma BulkUpdateEffect(t: Table, batch: seq<TempSummoner>)
    ensures BulkUpdateStatement(t, batch).Err? <==> LevelOverflow(batch)
    ensures BulkUpdateStatement(t, batch).Err? ==> BulkUpdateStatement(t, batch).error == OutOfRange
    ensures BulkUpdateStatement(t, batch).Ok? ==>
      var u := BulkUpdateStatement(t, batch).value;
      && |u.rows| == |t.rows| && u.nextId == t.nextId
      && (forall i | 0 <= i < |t.rows| :: u.rows[i].id == t.rows[i].id && u.rows[i].puuid == t.rows[i].puuid)
      && (forall i | 0 <= i < |t.rows| && (forall j | 0 <= j < |batch| :: Stage(batch[j]).puuid != t.rows[i].puuid) ::
            u.rows[i] == t.rows[i])
      && (forall i, j | 0 <= i < |t.rows| && 0 <= j < |batch| && Stage(batch[j]).puuid == t.rows[i].puuid
                        && (forall k | 0 <= k < j :: Stage(batch[k]).puuid != t.rows[i].puuid) ::
            u.rows[i] == Overwrite(t.rows[i], Stage(batch[j])))
  {
    UnnestColumns(batch);
    if !LevelOverflow(batch) {
      var staged := Unnest(ToColumns(batch)).value;
      assert forall j | 0 <= j < |batch| :: staged[j] == Stage(batch[j]);
      ApplyUpdateEffect(t, staged);
    }
  }

  /** `bulk_update` keeps the table's constraints. */
  lemma BulkUpdateValid(t: Table, batch: seq<TempSummoner>)
    requires Valid(t)
    ensures BulkUpdateStatement(t, batch).Ok? ==> Valid(BulkUpdateStatement(t, batch).value)
  {
  }

  /** Running the same `bulk_update` twice has the effect of running it once. */
  lemma BulkUpdateIdempotent(t: Table, batch: seq<TempSummoner>)
    requires BulkUpdateStatement(t, batch).Ok?
    ensures BulkUpdateStatement(BulkUpdateStatement(t, batch).value, batch) == BulkUpdateStatement(t, batch)
  {
    var u := BulkUpdateStatement(t, batch).value;
    var staged := Unnest(ToColumns(batch)).value;
    var v := ApplyUpdate(u, staged);
    assert |v.rows| == |u.rows|;
    forall i | 0 <= i < |u.rows|
      ensures v.rows[i] == u.rows[i]
    {
      assert u.rows[i].puuid == t.rows[i].puuid;
    }
    assert v.rows == u.rows;
    assert v == u;
  }

  // -------------------------------------------------------------- bulk_insert

  /** The statement's progress over the `UNNEST` rows: the table, the rows `RETURNING` has emitted, the ids it touched. */
  datatype UpsertState = UpsertState(rows: seq<SummonerRow>, nextId: int, returned: seq<SummonerRow>, touched: set<int>)

  /** The `ON CONFLICT … WHERE summoners.updated_at < EXCLUDED.updated_at` guard; false on NULL. */
  predicate Newer(row: SummonerRow, d: StagedRow) {
    row.updatedAt.Some? && row.updatedAt.value < d.updatedAt
  }

  function NewRow(id: int, d: StagedRow): SummonerRow {
    SummonerRow(id, d.gameName, d.tagLine, d.puuid, d.platform, d.summonerLevel, d.profileIconId, Some(d.updatedAt))
  }

  /**
   * One proposed row. The id default is drawn for every proposed row; a
   * new puuid is inserted; a conflicting one is overwritten when the guard
   * holds and left alone otherwise; reaching a row this statement already
   * inserted or updated is an error.
   */
  function UpsertStep(acc: UpsertState, d: StagedRow): Result<UpsertState, DbError> {
    var id := acc.nextId;
    match RowIndex(acc.rows, d.puuid)
    case None =>
      var row := NewRow(id, d);
      Ok(UpsertState(acc.rows + [row], id + 1, acc.returned + [row], acc.touched + {id}))
    case Some(i) =>
      var row := acc.rows[i];
      if row.id in acc.touched then Err(CardinalityViolation)
      else if Newer(row, d) then
        var updated := Overwrite(row, d);
        Ok(UpsertState(acc.rows[i := updated], id + 1, acc.returned + [updated], acc.touched + {row.id}))
      else Ok(acc.(nextId := id + 1))
  }

  /** The whole `INSERT … SELECT * FROM UNNEST … ON CONFLICT` statement, row by row, failing as a whole. */
  function Upsert(acc: UpsertState, staged: seq<StagedRow>): (r: Result<UpsertState, DbError>)
    ensures r.Ok? ==> r.value.nextId == acc.nextId + |staged|
    ensures r.Ok? ==> |acc.returned| <= |r.value.returned| <= |acc.returned| + |staged|
    ensures r.Ok? ==> r.value.returned[..|acc.returned|] == acc.returned
    decreases |staged|
  {
    if |staged| == 0 then Ok(acc)
    else match UpsertStep(acc, staged[0])
      case Err(e) => Err(e)
      case Ok(next) => Upsert(next, staged[1..])
  }

  /** What `bulk_insert`'s statement leaves: the new table and the rows it returned, in order. */
  datatype Inserted = Inserted(table: Table, returning: seq<SummonerRow>)

  /** The statement of `bulk_insert`. */
  function BulkInsertStatement(t: Table, batch: seq<TempSummoner>): (r: Result<Inserted, DbError>)
    ensures r.Ok? ==> |r.value.returning| <= |batch|
  {
    UnnestColumns(batch);
    match Unnest(ToColumns(batch))
    case Err(e) => Err(e)
    case Ok(staged) =>
      match Upsert(UpsertState(t.rows, t.nextId, [], {}), staged)
      case Err(e) => Err(e)
      case Ok(s) => Ok(Inserted(Table(s.rows, s.nextId), s.returned))
  }

  /** The `id` column of the returned rows (`RETURNING id`). */
  function Ids(returning: seq<SummonerRow>): (ids: seq<int>)
    ensures |ids| == |returning|
    ensures forall i | 0 <= i < |returning| :: ids[i] == returning[i].id
  {
    seq(|returning|, i requires 0 <= i < |returning| => returning[i].id)
  }

  /**
   * The `zip` in `Summoner::bulk_insert` (summoner.rs): the i-th returned
   * id is paired with the i-th record's puuid and the pairs collected into a
   * map, a later pair replacing an earlier one with the same key. `get(index).unwrap()` demands no more ids than records.
   */
  function ZipReturnedIds(batch: seq<TempSummoner>, ids: seq<int>): (m: map<Puuid, int>)
    requires |ids| <= |batch|
    ensures forall i | 0 <= i < |ids| :: batch[i].puuid in m
    ensures forall p | p in m :: exists i | 0 <= i < |ids| :: batch[i].puuid == p
    decreases |ids|
  {
    if |ids| == 0 then map[]
    else
      var n := |ids| - 1;
      var prev := ZipReturnedIds(batch, ids[..n]);
      assert forall i | 0 <= i < n :: ids[..n][i] == ids[i];
      prev[batch[n].puuid := ids[n]]
  }

  /** In the zipped map a puuid holds the id paired with its last occurrence among the first `|ids|` records. */
  lemma {:induction false} ZipLastWins(batch: seq<TempSummoner>, ids: seq<int>, i: nat)
    requires |ids| <= |batch| && i < |ids|
    requires forall k | i < k < |ids| :: batch[k].puuid != batch[i].puuid
    ensures ZipReturnedIds(batch, ids)[batch[i].puuid] == ids[i]
    decreases |ids|
  {
    var n := |ids| - 1;
    var prefix := ids[..n];
    ZipUnfold(batch, ids);
    if i < n {
      assert prefix[i] == ids[i];
      ZipLastWins(batch, prefix, i);
      assert batch[n].puuid != batch[i].puuid;
    }
  }

  /** One step of the zip: the last pair is added over the map of the earlier ones. */
  lemma ZipUnfold(batch: seq<TempSummoner>, ids: seq<int>)
    requires 0 < |ids| <= |batch|
    ensures ZipReturnedIds(batch, ids) == ZipReturnedIds(batch, ids[..|ids| - 1])[batch[|ids| - 1].puuid := ids[|ids| - 1]]
  {
  }

  /**
   * Pairing by key instead of by position: `RETURNING id, puuid`, each
   * returned row giving its own puuid and id.
   */
  function PairReturned(returning: seq<SummonerRow>): (m: map<Puuid, int>)
    ensures forall p :: p in m <==> exists i | 0 <= i < |returning| :: returning[i].puuid == p
    ensures forall p | p in m :: exists i | 0 <= i < |returning| :: returning[i].puuid == p && m[p] == returning[i].id
    decreases |returning|
  {
    if |returning| == 0 then map[]
    else
      var last := returning[|returning| - 1];
      PairReturned(returning[..|returning| - 1])[last.puuid := last.id]
  }

  // -------------------------------------------------- properties of bulk_insert

  /** The statement's invariant: the constraints hold and every returned row is still in the table, with its id and puuid. */
  ghost predicate UpsertInv(acc: UpsertState) {
    && Valid(Table(acc.rows, acc.nextId))
    && forall k | 0 <= k < |acc.returned| ::
         exists i | 0 <= i < |acc.rows| :: acc.rows[i].id == acc.returned[k].id && acc.rows[i].puuid == acc.returned[k].puuid
  }

  /** A step keeps the id and puuid at every existing position and may append one row. */
  lemma StepKeepsKeys(acc: UpsertState, d: StagedRow)
    requires UpsertStep(acc, d).Ok?
    ensures var next := UpsertStep(acc, d).value;
      && |acc.rows| <= |next.rows| <= |acc.rows| + 1
      && next.nextId == acc.nextId + 1
      && (forall i | 0 <= i < |acc.rows| :: next.rows[i].id == acc.rows[i].id && next.rows[i].puuid == acc.rows[i].puuid)
      && (|next.rows| == |acc.rows| + 1 ==> next.rows[|acc.rows|] == NewRow(acc.nextId, d) && RowIndex(acc.rows, d.puuid).None?)
  {
  }

  lemma StepValid(acc: UpsertState, d: StagedRow)
    requires Valid(Table(acc.rows, acc.nextId)) && UpsertStep(acc, d).Ok?
    ensures Valid(Table(UpsertStep(acc, d).value.rows, UpsertStep(acc, d).value.nextId))
  {
    StepKeepsKeys(acc, d);
  }

  lemma StepInv(acc: UpsertState, d: StagedRow)
    requires UpsertInv(acc) && UpsertStep(acc, d).Ok?
    ensures UpsertInv(UpsertStep(acc, d).value)
  {
    var next := UpsertStep(acc, d).value;
    StepKeepsKeys(acc, d);
    StepValid(acc, d);
    forall k | 0 <= k < |next.returned|
      ensures exists i | 0 <= i < |next.rows| :: next.rows[i].id == next.returned[k].id && next.rows[i].puuid == next.returned[k].puuid
    {
      if k < |acc.returned| {
        assert next.returned[k] == acc.returned[k];
        var i :| 0 <= i < |acc.rows| && acc.rows[i].id == acc.returned[k].id && acc.rows[i].puuid == acc.returned[k].puuid;
        assert next.rows[i].id == next.returned[k].id && next.rows[i].puuid == next.returned[k].puuid;
      } else {
        match RowIndex(acc.rows, d.puuid)
        case None =>
          assert next.rows[|acc.rows|] == next.returned[k];
        case Some(i) =>
          assert next.rows[i] == next.returned[k];
      }
    }
  }

  lemma {:induction false} UpsertKeepsInv(acc: UpsertState, staged: seq<StagedRow>)
    requires UpsertInv(acc) && Upsert(acc, staged).Ok?
    ensures UpsertInv(Upsert(acc, staged).value)
    decreases |staged|
  {
    if |staged| > 0 {
      StepInv(acc, staged[0]);
      UpsertKeepsInv(UpsertStep(acc, staged[0]).value, staged[1..]);
    }
  }

  /** `bulk_insert` keeps the table's constraints. */
  lemma BulkInsertValid(t: Table, batch: seq<TempSummoner>)
    requires Valid(t) && BulkInsertStatement(t, batch).Ok?
    ensures Valid(BulkInsertStatement(t, batch).value.table)
  {
    UnnestColumns(batch);
    UpsertKeepsInv(UpsertState(t.rows, t.nextId, [], {}), Unnest(ToColumns(batch)).value);
  }

  /**
   * Pairing by key is always right: every puuid of the corrected map is
   * the puuid of a row of the new table, and it maps to that row's id.
   */
  lemma PairedIdsAlign(t: Table, batch: seq<TempSummoner>)
    requires Valid(t) && BulkInsertStatement(t, batch).Ok?
    ensures var ins := BulkInsertStatement(t, batch).value;
      var m := PairReturned(ins.returning);
      forall p | p in m :: Lookup(ins.table.rows, p).Some? && Lookup(ins.table.rows, p).value.id == m[p]
  {
    UnnestColumns(batch);
    var staged := Unnest(ToColumns(batch)).value;
    var s := Upsert(UpsertState(t.rows, t.nextId, [], {}), staged).value;
    UpsertKeepsInv(UpsertState(t.rows, t.nextId, [], {}), staged);
    var m := PairReturned(s.returned);
    forall p | p in m
      ensures Lookup(s.rows, p).Some? && Lookup(s.rows, p).value.id == m[p]
    {
      var k :| 0 <= k < |s.returned| && s.returned[k].puuid == p && m[p] == s.returned[k].id;
      var i :| 0 <= i < |s.rows| && s.rows[i].id == s.returned[k].id && s.rows[i].puuid == p;
      LookupAt(Table(s.rows, s.nextId), i);
    }
  }

  /** With unique puuids, a row is what a lookup of its puuid finds. */
  lemma LookupAt(t: Table, i: nat)
    requires Valid(t) && i < |t.rows|
    ensures Lookup(t.rows, t.rows[i].puuid) == Some(t.rows[i])
  {
    var r := RowIndex(t.rows, t.rows[i].puuid);
    assert r.Some?;
    assert r.value == i;
  }

  /**
   * The positional pairing in `bulk_insert` misattributes ids: a record the
   * guard skips returns no id, so the next record's id is paired with the
   * skipped record's puuid, and the record that was inserted gets no entry.
   */
  lemma ZipShiftsIds(t: Table, batch: seq<TempSummoner>)
    requires t == Table([SummonerRow(1, "x", "t", "a", "euw1", 1, 1, Some(10))], 2)
    requires batch == [TempSummoner("x", "t", "a", "euw1", 1, 1, 5), TempSummoner("y", "t", "b", "euw1", 1, 1, 5)]
    ensures Valid(t) && BulkInsertStatement(t, batch).Ok?
    ensures var ins := BulkInsertStatement(t, batch).value;
      && Lookup(ins.table.rows, "a") == Some(t.rows[0])
      && Lookup(ins.table.rows, "b").Some? && Lookup(ins.table.rows, "b").value.id == 3
      && ZipReturnedIds(batch, Ids(ins.returning)) == map["a" := 3]
      && PairReturned(ins.returning) == map["b" := 3]
  {
    var row := SummonerRow(3, "y", "t", "b", "euw1", 1, 1, Some(5));
    var rows := t.rows + [row];
    ShiftedUpsert(t, batch, row);
    var ins := BulkInsertStatement(t, batch).value;
    assert ins.table.rows == rows && ins.returning == [row];
    assert RowIndex(rows, "a") == Some(0);
    assert RowIndex(rows, "b") == Some(1) by {
      assert rows[0].puuid != "b";
      assert rows[1..] == [row];
    }
    assert Ids([row]) == [3];
    assert ZipReturnedIds(batch, [3]) == map[][batch[0].puuid := 3];
    assert PairReturned([row]) == map[][row.puuid := 3];
  }

  /** The statement behind `ZipShiftsIds`: the first record is skipped by the guard, the second inserted. */
  lemma ShiftedUpsert(t: Table, batch: seq<TempSummoner>, row: SummonerRow)
    requires t == Table([SummonerRow(1, "x", "t", "a", "euw1", 1, 1, Some(10))], 2)
    requires batch == [TempSummoner("x", "t", "a", "euw1", 1, 1, 5), TempSummoner("y", "t", "b", "euw1", 1, 1, 5)]
    requires row == SummonerRow(3, "y", "t", "b", "euw1", 1, 1, Some(5))
    ensures Unnest(ToColumns(batch)).Ok?
    ensures Upsert(UpsertState(t.rows, 2, [], {}), Unnest(ToColumns(batch)).value) == Ok(UpsertState(t.rows + [row], 4, [row], {3}))
  {
    UnnestColumns(batch);
    assert InI32(batch[0].summonerLevel) && InI32(batch[1].summonerLevel);
    assert !LevelOverflow(batch);
    var staged := Unnest(ToColumns(batch)).value;
    assert staged[0] == StagedRow("x", "t", "a", "euw1", 1, 1, 5);
    assert staged[1] == StagedRow("y", "t", "b", "euw1", 1, 1, 5);
    var s0 := UpsertState(t.rows, 2, [], {});
    assert RowIndex(t.rows, "a") == Some(0);
    var s1 := s0.(nextId := 3);
    assert UpsertStep(s0, staged[0]) == Ok(s1);
    assert RowIndex(t.rows, "b") == None by {
      assert t.rows[0].puuid != "b";
    }
    assert NewRow(3, staged[1]) == row;
    var s2 := UpsertState(t.rows + [row], 4, [row], {3});
    var r := UpsertStep(s1, staged[1]);
    assert r.Ok? && r.value.rows == s2.rows && r.value.nextId == 4;
    assert r.value.returned == [row] && r.value.touched == {3};
    assert r == Ok(s2);
    assert staged[1..][1..] == [];
    assert Upsert(s1, staged[1..]) == Ok(s2);
  }

  /** The row a batch of distinct puuids leaves for one record: inserted, overwritten when newer, or kept. */
  function Merge(stored: Option<SummonerRow>, d: StagedRow, id: int): SummonerRow {
    match stored
    case None => NewRow(id, d)
    case Some(row) => if Newer(row, d) then Overwrite(row, d) else row
  }

  /** Lookups after a step: only the step's own puuid changes. */
  lemma StepLookup(acc: UpsertState, d: StagedRow)
    requires UpsertStep(acc, d).Ok?
    ensures var next := UpsertStep(acc, d).value;
      && Lookup(next.rows, d.puuid) == Some(Merge(Lookup(acc.rows, d.puuid), d, acc.nextId))
      && forall p | p != d.puuid :: Lookup(next.rows, p) == Lookup(acc.rows, p)
  {
    var next := UpsertStep(acc, d).value;
    match RowIndex(acc.rows, d.puuid)
    case None =>
      forall p
        ensures RowIndex(next.rows, p) == (if p == d.puuid then Some(|acc.rows|) else RowIndex(acc.rows, p))
      {
        RowIndexAppend(acc.rows, NewRow(acc.nextId, d), p);
      }
    case Some(i) =>
      forall p
        ensures RowIndex(next.rows, p) == RowIndex(acc.rows, p)
      {
        RowIndexSamePuuids(acc.rows, next.rows, p);
      }
  }

  lemma {:induction false} RowIndexAppend(rows: seq<SummonerRow>, row: SummonerRow, p: Puuid)
    ensures RowIndex(rows + [row], p) ==
      match RowIndex(rows, p)
      case Some(k) => Some(k)
      case None => if row.puuid == p then Some(|rows|) else None
    decreases |rows|
  {
    if |rows| > 0 {
      assert (rows + [row])[1..] == rows[1..] + [row];
      RowIndexAppend(rows[1..], row, p);
    }
  }

  lemma {:induction false} RowIndexSamePuuids(rows: seq<SummonerRow>, rows': seq<SummonerRow>, p: Puuid)
    requires |rows| == |rows'| && forall i | 0 <= i < |rows| :: rows[i].puuid == rows'[i].puuid
    ensures RowIndex(rows, p) == RowIndex(rows', p)
    decreases |rows|
  {
    if |rows| > 0 {
      RowIndexSamePuuids(rows[1..], rows'[1..], p);
    }
  }

  predicate DistinctPuuids(staged: seq<StagedRow>) {
    forall i, j | 0 <= i < j < |staged| :: staged[i].puuid != staged[j].puuid
  }

  /** No row this statement touched carries a puuid still to come. */
  ghost predicate UntouchedAhead(acc: UpsertState, staged: seq<StagedRow>) {
    forall i, j | 0 <= i < |acc.rows| && 0 <= j < |staged| && acc.rows[i].id in acc.touched ::
      staged[j].puuid != acc.rows[i].puuid
  }

  /** With distinct puuids ahead, the next step succeeds and the conditions carry over to the rest. */
  lemma StepReady(acc: UpsertState, staged: seq<StagedRow>)
    requires Valid(Table(acc.rows, acc.nextId)) && DistinctPuuids(staged) && UntouchedAhead(acc, staged)
    requires |staged| > 0
    ensures UpsertStep(acc, staged[0]).Ok?
    ensures var next := UpsertStep(acc, staged[0]).value;
      Valid(Table(next.rows, next.nextId)) && DistinctPuuids(staged[1..]) && UntouchedAhead(next, staged[1..])
  {
    var d := staged[0];
    var ri := RowIndex(acc.rows, d.puuid);
    if ri.Some? {
      assert acc.rows[ri.value].id !in acc.touched;
    }
    assert UpsertStep(acc, d).Ok?;
    var next := UpsertStep(acc, d).value;
    StepKeepsKeys(acc, d);
    StepValid(acc, d);
    var rest := staged[1..];
    forall i, j | 0 <= i < |next.rows| && 0 <= j < |rest| && next.rows[i].id in next.touched
      ensures rest[j].puuid != next.rows[i].puuid
    {
      assert rest[j] == staged[j + 1];
      if !(i < |acc.rows| && acc.rows[i].id in acc.touched) {
        assert next.rows[i].puuid == d.puuid;
      }
    }
  }

  /** A puuid no record carries keeps its row through the whole statement. */
  lemma {:induction false} UpsertOthers(acc: UpsertState, staged: seq<StagedRow>, p: Puuid)
    requires Upsert(acc, staged).Ok?
    requires forall j | 0 <= j < |staged| :: staged[j].puuid != p
    ensures Lookup(Upsert(acc, staged).value.rows, p) == Lookup(acc.rows, p)
    decreases |staged|
  {
    if |staged| > 0 {
      StepLookup(acc, staged[0]);
      var rest := staged[1..];
      forall k | 0 <= k < |rest|
        ensures rest[k].puuid != p
      {
        assert rest[k] == staged[k + 1];
      }
      UpsertOthers(UpsertStep(acc, staged[0]).value, rest, p);
    }
  }

  /** With distinct puuids the statement cannot fail. */
  lemma {:induction false} UpsertSucceeds(acc: UpsertState, staged: seq<StagedRow>)
    requires Valid(Table(acc.rows, acc.nextId)) && DistinctPuuids(staged) && UntouchedAhead(acc, staged)
    ensures Upsert(acc, staged).Ok?
    decreases |staged|
  {
    if |staged| > 0 {
      StepReady(acc, staged);
      UpsertSucceeds(UpsertStep(acc, staged[0]).value, staged[1..]);
    }
  }

  /**
   * With distinct puuids, the `j`-th record's puuid ends up with the row
   * `Merge` gives, a new row taking the `j`-th id the statement draws.
   */
  lemma {:induction false} UpsertListed(acc: UpsertState, staged: seq<StagedRow>, j: nat)
    requires Valid(Table(acc.rows, acc.nextId)) && DistinctPuuids(staged) && UntouchedAhead(acc, staged)
    requires j < |staged|
    ensures Upsert(acc, staged).Ok?
    ensures Lookup(Upsert(acc, staged).value.rows, staged[j].puuid)
         == Some(Merge(Lookup(acc.rows, staged[j].puuid), staged[j], acc.nextId + j))
    decreases |staged|
  {
    StepReady(acc, staged);
    if j == 0 {
      UpsertListedHead(acc, staged);
    } else {
      var next := UpsertStep(acc, staged[0]).value;
      var rest := staged[1..];
      StepLookup(acc, staged[0]);
      assert rest[j - 1] == staged[j];
      assert staged[j].puuid != staged[0].puuid;
      UpsertListed(next, rest, j - 1);
    }
  }

  /** The first record's row, once written, is not touched again by the records after it. */
  lemma UpsertListedHead(acc: UpsertState, staged: seq<StagedRow>)
    requires Valid(Table(acc.rows, acc.nextId)) && DistinctPuuids(staged) && UntouchedAhead(acc, staged)
    requires |staged| > 0
    ensures Upsert(acc, staged).Ok?
    ensures Lookup(Upsert(acc, staged).value.rows, staged[0].puuid)
         == Some(Merge(Lookup(acc.rows, staged[0].puuid), staged[0], acc.nextId))
  {
    var d := staged[0];
    StepReady(acc, staged);
    var next := UpsertStep(acc, d).value;
    StepLookup(acc, d);
    var rest := staged[1..];
    UpsertSucceeds(next, rest);
    forall k | 0 <= k < |rest|
      ensures rest[k].puuid != d.puuid
    {
      assert rest[k] == staged[k + 1];
    }
    UpsertOthers(next, rest, d.puuid);
  }

  /** In `rows`, each record's puuid has the row `Merge` gives from `before`, the `j`-th drawing id `firstId + j`. */
  ghost predicate MergedAt(rows: seq<SummonerRow>, before: seq<SummonerRow>, staged: seq<StagedRow>, firstId: int) {
    forall j | 0 <= j < |staged| ::
      Lookup(rows, staged[j].puuid) == Some(Merge(Lookup(before, staged[j].puuid), staged[j], firstId + j))
  }

  /** In `rows`, every puuid no record carries looks up as in `before`. */
  ghost predicate KeptElsewhere(rows: seq<SummonerRow>, before: seq<SummonerRow>, staged: seq<StagedRow>) {
    forall p | (forall j | 0 <= j < |staged| :: staged[j].puuid != p) :: Lookup(rows, p) == Lookup(before, p)
  }

  /** Every record's puuid ends up with the row `Merge` gives. */
  lemma UpsertAllListed(acc: UpsertState, staged: seq<StagedRow>)
    requires Valid(Table(acc.rows, acc.nextId)) && DistinctPuuids(staged) && UntouchedAhead(acc, staged)
    requires Upsert(acc, staged).Ok?
    ensures MergedAt(Upsert(acc, staged).value.rows, acc.rows, staged, acc.nextId)
  {
    forall j | 0 <= j < |staged|
      ensures Lookup(Upsert(acc, staged).value.rows, staged[j].puuid)
           == Some(Merge(Lookup(acc.rows, staged[j].puuid), staged[j], acc.nextId + j))
    {
      UpsertListed(acc, staged, j);
    }
  }

  /** Every puuid no record carries keeps its row. */
  lemma UpsertAllOthers(acc: UpsertState, staged: seq<StagedRow>)
    requires Upsert(acc, staged).Ok?
    ensures KeptElsewhere(Upsert(acc, staged).value.rows, acc.rows, staged)
  {
    forall p | (forall j | 0 <= j < |staged| :: staged[j].puuid != p)
      ensures Lookup(Upsert(acc, staged).value.rows, p) == Lookup(acc.rows, p)
    {
      UpsertOthers(acc, staged, p);
    }
  }

  /**
   * The upsert run from a valid table on records with distinct puuids:
   * each record's puuid gets the row `Merge` gives, every other row stays.
   */
  lemma UpsertFromTable(t: Table, staged: seq<StagedRow>)
    requires Valid(t) && DistinctPuuids(staged)
    ensures Upsert(UpsertState(t.rows, t.nextId, [], {}), staged).Ok?
    ensures var rows := Upsert(UpsertState(t.rows, t.nextId, [], {}), staged).value.rows;
      MergedAt(rows, t.rows, staged, t.nextId) && KeptElsewhere(rows, t.rows, staged)
  {
    var s0 := UpsertState(t.rows, t.nextId, [], {});
    assert UntouchedAhead(s0, staged);
    UpsertSucceeds(s0, staged);
    UpsertAllListed(s0, staged);
    UpsertAllOthers(s0, staged);
  }

  /**
   * `bulk_insert` on records with distinct puuids (after the `VARCHAR(78)`
   * cast): a new puuid gets a new row with the record's fields; an
   * existing one has its six fields replaced when its stored `updated_at`
   * is older than the record's, and is left as it was otherwise (also when
   * NULL); every other row is unchanged.
   */
  lemma BulkInsertByPuuid(t: Table, batch: seq<TempSummoner>)
    requires Valid(t) && !LevelOverflow(batch)
    requires forall i, j | 0 <= i < j < |batch| :: Stage(batch[i]).puuid != Stage(batch[j]).puuid
    ensures BulkInsertStatement(t, batch).Ok?
    ensures var rows := BulkInsertStatement(t, batch).value.table.rows;
      && (forall j | 0 <= j < |batch| ::
            Lookup(rows, Stage(batch[j]).puuid) == Some(Merge(Lookup(t.rows, Stage(batch[j]).puuid), Stage(batch[j]), t.nextId + j)))
      && (forall p | (forall j | 0 <= j < |batch| :: Stage(batch[j]).puuid != p) :: Lookup(rows, p) == Lookup(t.rows, p))
  {
    UnnestColumns(batch);
    var staged := Unnest(ToColumns(batch)).value;
    assert DistinctPuuids(staged) by {
      forall i, j | 0 <= i < j < |staged|
        ensures staged[i].puuid != staged[j].puuid
      {
        assert staged[i] == Stage(batch[i]) && staged[j] == Stage(batch[j]);
      }
    }
    UpsertFromTable(t, staged);
    var rows := Upsert(UpsertState(t.rows, t.nextId, [], {}), staged).value.rows;
    assert BulkInsertStatement(t, batch).value.table.rows == rows;
    forall j | 0 <= j < |batch|
      ensures Lookup(rows, Stage(batch[j]).puuid) == Some(Merge(Lookup(t.rows, Stage(batch[j]).puuid), Stage(batch[j]), t.nextId + j))
    {
      assert staged[j] == Stage(batch[j]);
      assert MergedAt(rows, t.rows, staged, t.nextId);
    }
    forall p | (forall j | 0 <= j < |batch| :: Stage(batch[j]).puuid != p)
      ensures Lookup(rows, p) == Lookup(t.rows, p)
    {
      forall j | 0 <= j < |staged|
        ensures staged[j].puuid != p
      {
        assert staged[j] == Stage(batch[j]);
      }
      assert KeptElsewhere(rows, t.rows, staged);
    }
  }

  /** A step returns nothing, or one more row carrying the record's puuid. */
  lemma StepReturns(acc: UpsertState, d: StagedRow)
    requires UpsertStep(acc, d).Ok?
    ensures var next := UpsertStep(acc, d).value;
      || next.returned == acc.returned
      || (next.returned == acc.returned + [next.returned[|acc.returned|]]
          && next.returned[|acc.returned|].puuid == d.puuid)
  {
  }

  /** `RETURNING` follows the stated order of the rows. */
  ghost predicate ReturnedInOrder(returned: seq<SummonerRow>, from: nat, staged: seq<StagedRow>) {
    from + |staged| <= |returned| && forall i | 0 <= i < |staged| :: returned[from + i].puuid == staged[i].puuid
  }

  /**
   * When every record produces a returned row, the `i`-th returned row is
   * the `i`-th record's.
   */
  lemma {:induction false} UpsertReturnsInOrder(acc: UpsertState, staged: seq<StagedRow>)
    requires Upsert(acc, staged).Ok?
    requires |Upsert(acc, staged).value.returned| == |acc.returned| + |staged|
    ensures ReturnedInOrder(Upsert(acc, staged).value.returned, |acc.returned|, staged)
    decreases |staged|
  {
    if |staged| > 0 {
      var d := staged[0];
      var next := UpsertStep(acc, d).value;
      var rest := staged[1..];
      var r := Upsert(next, rest).value;
      assert r == Upsert(acc, staged).value;
      StepReturns(acc, d);
      assert |next.returned| == |acc.returned| + 1;
      UpsertReturnsInOrder(next, rest);
      assert r.returned[..|next.returned|] == next.returned;
      assert r.returned[|acc.returned|] == next.returned[|acc.returned|];
      forall i | 0 <= i < |staged|
        ensures r.returned[|acc.returned| + i].puuid == staged[i].puuid
      {
        if i > 0 {
          assert rest[i - 1] == staged[i];
        }
      }
    }
  }

  /** The returned rows in record order: row `i` carries record `i`'s puuid. */
  ghost predicate InRecordOrder(batch: seq<TempSummoner>, returning: seq<SummonerRow>) {
    |returning| == |batch| && forall i | 0 <= i < |batch| :: returning[i].puuid == batch[i].puuid
  }

  /** Two maps agree at `k`: both hold it with the same value, or neither holds it. */
  ghost predicate AgreeAt<K, V>(m1: map<K, V>, m2: map<K, V>, k: K) {
    (k in m1 <==> k in m2) && (k in m1 ==> m1[k] == m2[k])
  }

  /** Maps that agree at every key are equal. */
  lemma MapsAgree<K, V>(m1: map<K, V>, m2: map<K, V>)
    requires forall k :: AgreeAt(m1, m2, k)
    ensures m1 == m2
  {
    assert forall k | k in m1 :: k in m2 && m1[k] == m2[k] by {
      forall k | k in m1
        ensures k in m2 && m1[k] == m2[k]
      {
        assert AgreeAt(m1, m2, k);
      }
    }
    assert forall k | k in m2 :: k in m1 by {
      forall k | k in m2
        ensures k in m1
      {
        assert AgreeAt(m1, m2, k);
      }
    }
  }

  /** Both pairings have the same keys when the rows come back in record order. */
  lemma {:induction false} ZipAndPairingKeys(batch: seq<TempSummoner>, returning: seq<SummonerRow>, p: Puuid)
    requires InRecordOrder(batch, returning)
    ensures p in ZipReturnedIds(batch, Ids(returning)) <==> p in PairReturned(returning)
  {
    var m1 := ZipReturnedIds(batch, Ids(returning));
    if p in m1 {
      var i :| 0 <= i < |returning| && batch[i].puuid == p;
      assert returning[i].puuid == p;
    }
    if p in PairReturned(returning) {
      var i :| 0 <= i < |returning| && returning[i].puuid == p;
      assert batch[i].puuid in m1;
    }
  }

  /** ... and the same id for each key, once the puuids are distinct. */
  lemma {:induction false} ZipAndPairingValues(batch: seq<TempSummoner>, returning: seq<SummonerRow>, p: Puuid)
    requires InRecordOrder(batch, returning)
    requires forall i, j | 0 <= i < j < |batch| :: batch[i].puuid != batch[j].puuid
    requires p in ZipReturnedIds(batch, Ids(returning)) && p in PairReturned(returning)
    ensures ZipReturnedIds(batch, Ids(returning))[p] == PairReturned(returning)[p]
  {
    var ids := Ids(returning);
    var m2 := PairReturned(returning);
    var i :| 0 <= i < |ids| && batch[i].puuid == p;
    var j :| 0 <= j < |returning| && returning[j].puuid == p && m2[p] == returning[j].id;
    assert batch[j].puuid == p by {
      assert returning[j].puuid == batch[j].puuid;
    }
    if i != j {
      assert false;
    }
    assert forall k | i < k < |ids| :: batch[k].puuid != batch[i].puuid;
    ZipLastWins(batch, ids, i);
    assert ids[i] == returning[i].id;
  }

  /**
   * Pairing by position and pairing by row agree when the `i`-th returned
   * row carries the `i`-th record's puuid and the puuids are distinct.
   */
  lemma {:induction false} ZipAgreesWithPairing(batch: seq<TempSummoner>, returning: seq<SummonerRow>)
    requires |returning| == |batch|
    requires forall i, j | 0 <= i < j < |batch| :: batch[i].puuid != batch[j].puuid
    requires forall i | 0 <= i < |batch| :: returning[i].puuid == batch[i].puuid
    ensures ZipReturnedIds(batch, Ids(returning)) == PairReturned(returning)
  {
    var m1 := ZipReturnedIds(batch, Ids(returning));
    var m2 := PairReturned(returning);
    forall p
      ensures AgreeAt(m1, m2, p)
    {
      ZipAndPairingKeys(batch, returning, p);
      if p in m1 {
        ZipAndPairingValues(batch, returning, p);
      }
    }
    MapsAgree(m1, m2);
  }

  /**
   * With puuids that fit `VARCHAR(78)` and one returned row per record, the
   * statement returns the records' rows in the records' order.
   */
  lemma BulkInsertReturnsInOrder(t: Table, batch: seq<TempSummoner>)
    requires forall i | 0 <= i < |batch| :: |batch[i].puuid| <= 78
    requires BulkInsertStatement(t, batch).Ok? && |BulkInsertStatement(t, batch).value.returning| == |batch|
    ensures forall i | 0 <= i < |batch| :: BulkInsertStatement(t, batch).value.returning[i].puuid == batch[i].puuid
  {
    UnnestColumns(batch);
    var staged := Unnest(ToColumns(batch)).value;
    var s0 := UpsertState(t.rows, t.nextId, [], {});
    var returning := BulkInsertStatement(t, batch).value.returning;
    assert returning == Upsert(s0, staged).value.returned;
    UpsertReturnsInOrder(s0, staged);
    forall i | 0 <= i < |batch|
      ensures returning[i].puuid == batch[i].puuid
    {
      assert staged[i] == Stage(batch[i]);
      assert returning[0 + i].puuid == staged[i].puuid;
    }
  }

  /**
   * The positional zip of `bulk_insert` (summoner.rs, the `zip` after the
   * upsert) is right when nothing is skipped: with distinct puuids that fit
   * `VARCHAR(78)` and one returned row per record, pairing by position gives
   * the same map as pairing each id with its own row's puuid.
   */
  lemma ZipAlignsWhenAllReturned(t: Table, batch: seq<TempSummoner>)
    requires forall i, j | 0 <= i < j < |batch| :: batch[i].puuid != batch[j].puuid
    requires forall i | 0 <= i < |batch| :: |batch[i].puuid| <= 78
    requires BulkInsertStatement(t, batch).Ok? && |BulkInsertStatement(t, batch).value.returning| == |batch|
    ensures var ins := BulkInsertStatement(t, batch).value;
      ZipReturnedIds(batch, Ids(ins.returning)) == PairReturned(ins.returning)
  {
    BulkInsertReturnsInOrder(t, batch);
    ZipAgreesWithPairing(batch, BulkInsertStatement(t, batch).value.returning);
  }

  /** The same new puuid twice in one batch makes the whole statement fail. */
  lemma BulkInsertRepeatFails(t: Table, x: TempSummoner, y: TempSummoner)
    requires Stage(x).puuid == Stage(y).puuid && Lookup(t.rows, Stage(x).puuid).None?
    requires InI32(x.summonerLevel) && InI32(y.summonerLevel)
    ensures BulkInsertStatement(t, [x, y]) == Err(CardinalityViolation)
  {
    var batch := [x, y];
    UnnestColumns(batch);
    assert !LevelOverflow(batch);
    var staged := Unnest(ToColumns(batch)).value;
    assert staged == [Stage(x), Stage(y)];
    var s0 := UpsertState(t.rows, t.nextId, [], {});
    assert RowIndex(t.rows, Stage(x).puuid).None?;
    var row := NewRow(t.nextId, Stage(x));
    var s1 := UpsertState(t.rows + [row], t.nextId + 1, [row], {t.nextId});
    var r := UpsertStep(s0, Stage(x));
    assert r.Ok? && r.value.rows == s1.rows && r.value.nextId == s1.nextId;
    assert r.value.returned == [row] && r.value.touched == {t.nextId};
    assert r == Ok(s1);
    RowIndexAppend(t.rows, row, Stage(y).puuid);
    assert RowIndex(s1.rows, Stage(y).puuid) == Some(|t.rows|);
    assert UpsertStep(s1, Stage(y)) == Err(CardinalityViolation);
    assert staged[1..] == [Stage(y)];
    assert Upsert(s1, staged[1..]) == Err(CardinalityViolation);
  }

  // ------------------------------------------------------------------ lookups

  predicate UniquePuuids(rows: seq<SummonerRow>) {
    forall i, j | 0 <= i < j < |rows| :: rows[i].puuid != rows[j].puuid
  }

  /**
   * `fetch_existing_summoners`: the rows `WHERE puuid = ANY($1)` collected
   * into a map from puuid to (id, `updated_at` in seconds `as i32`).
   * `updated_at.unwrap()` panics on a selected row whose `updated_at` is NULL.
   */
  function ExistingSummoners(rows: seq<SummonerRow>, puuids: seq<Puuid>): (m: map<Puuid, (int, I32)>)
    requires forall i | 0 <= i < |rows| && rows[i].puuid in puuids :: rows[i].updatedAt.Some?
    ensures forall p | p in m :: p in puuids && exists i | 0 <= i < |rows| :: rows[i].puuid == p
    ensures forall i | 0 <= i < |rows| && rows[i].puuid in puuids :: rows[i].puuid in m
    decreases |rows|
  {
    if |rows| == 0 then map[]
    else
      var n := |rows| - 1;
      var prev := ExistingSummoners(rows[..n], puuids);
      assert forall i | 0 <= i < n :: rows[..n][i] == rows[i];
      if rows[n].puuid in puuids then prev[rows[n].puuid := (rows[n].id, AsI32(rows[n].updatedAt.value))]
      else prev
  }

  /** Under unique puuids each fetched entry is its own row's id and timestamp. */
  lemma {:induction false} ExistingSummonersExact(rows: seq<SummonerRow>, puuids: seq<Puuid>, i: nat)
    requires forall k | 0 <= k < |rows| && rows[k].puuid in puuids :: rows[k].updatedAt.Some?
    requires UniquePuuids(rows) && i < |rows| && rows[i].puuid in puuids
    ensures ExistingSummoners(rows, puuids)[rows[i].puuid] == (rows[i].id, AsI32(rows[i].updatedAt.value))
    decreases |rows|
  {
    var n := |rows| - 1;
    if i < n {
      assert rows[..n][i] == rows[i];
      assert forall k | 0 <= k < n :: rows[..n][k] == rows[k];
      UniquePrefix(rows, n);
      ExistingSummonersExact(rows[..n], puuids, i);
      assert rows[n].puuid != rows[i].puuid;
    }
  }

  /**
   * `find_summoner_ids_by_puuids`: the rows matching one of the puuids
   * and the platform, collected into a map from puuid to id.
   */
  function SummonerIdsByPuuids(rows: seq<SummonerRow>, platform: string, puuids: seq<Puuid>): (m: map<Puuid, int>)
    ensures forall p | p in m :: p in puuids && exists i | 0 <= i < |rows| :: rows[i].puuid == p && rows[i].platform == platform
    ensures forall i | 0 <= i < |rows| && rows[i].puuid in puuids && rows[i].platform == platform :: rows[i].puuid in m
    decreases |rows|
  {
    if |rows| == 0 then map[]
    else
      var n := |rows| - 1;
      var prev := SummonerIdsByPuuids(rows[..n], platform, puuids);
      assert forall i | 0 <= i < n :: rows[..n][i] == rows[i];
      if rows[n].puuid in puuids && rows[n].platform == platform then prev[rows[n].puuid := rows[n].id]
      else prev
  }

  lemma {:induction false} SummonerIdsByPuuidsExact(rows: seq<SummonerRow>, platform: string, puuids: seq<Puuid>, i: nat)
    requires UniquePuuids(rows) && i < |rows| && rows[i].puuid in puuids && rows[i].platform == platform
    ensures SummonerIdsByPuuids(rows, platform, puuids)[rows[i].puuid] == rows[i].id
    decreases |rows|
  {
    var n := |rows| - 1;
    var prev := SummonerIdsByPuuids(rows[..n], platform, puuids);
    var m := SummonerIdsByPuuids(rows, platform, puuids);
    assert m == if rows[n].puuid in puuids && rows[n].platform == platform then prev[rows[n].puuid := rows[n].id] else prev;
    if i < n {
      assert rows[..n][i] == rows[i];
      UniquePrefix(rows, n);
      SummonerIdsByPuuidsExact(rows[..n], platform, puuids, i);
      assert rows[n].puuid != rows[i].puuid;
    }
  }

  /** A prefix of rows with distinct puuids has distinct puuids. */
  lemma UniquePrefix(rows: seq<SummonerRow>, n: nat)
    requires UniquePuuids(rows) && n <= |rows|
    ensures UniquePuuids(rows[..n])
  {
    forall i, j | 0 <= i < j < n
      ensures rows[..n][i].puuid != rows[..n][j].puuid
    {
      assert rows[..n][i] == rows[i] && rows[..n][j] == rows[j];
    }
  }

  /** `find_summoner_id_by_puuid`: `fetch_one` of the row matching the puuid and the platform. */
  function SummonerIdByPuuid(rows: seq<SummonerRow>, platform: string, puuid: Puuid): (r: Result<int, DbError>)
    ensures r.Ok? ==> exists i | 0 <= i < |rows| :: rows[i].puuid == puuid && rows[i].platform == platform && rows[i].id == r.value
    ensures r.Err? ==> r.error == NotFound && forall i | 0 <= i < |rows| :: !(rows[i].puuid == puuid && rows[i].platform == platform)
    decreases |rows|
  {
    if |rows| == 0 then Err(NotFound)
    else if rows[0].puuid == puuid && rows[0].platform == platform then Ok(rows[0].id)
    else
      var r := SummonerIdByPuuid(rows[1..], platform, puuid);
      assert forall i | 1 <= i < |rows| :: rows[1..][i - 1] == rows[i];
      r
  }

  /**
   * The single lookup and the batch lookup agree: asked for one puuid, the
   * batch lookup has an entry exactly when the single one succeeds, with the same id.
   */
  lemma SingleAndBatchLookupAgree(t: Table, platform: string, puuid: Puuid)
    requires Valid(t)
    ensures var m := SummonerIdsByPuuids(t.rows, platform, [puuid]);
      && (puuid in m <==> SummonerIdByPuuid(t.rows, platform, puuid).Ok?)
      && (puuid in m ==> m[puuid] == SummonerIdByPuuid(t.rows, platform, puuid).value)
  {
    var m := SummonerIdsByPuuids(t.rows, platform, [puuid]);
    var r := SummonerIdByPuuid(t.rows, platform, puuid);
    if r.Ok? {
      var i :| 0 <= i < |t.rows| && t.rows[i].puuid == puuid && t.rows[i].platform == platform && t.rows[i].id == r.value;
      SummonerIdsByPuuidsExact(t.rows, platform, [puuid], i);
    }
  }

  // --------------------------------------------------------- single-row writes

  /** The `riven` account: its name parts are optional. */
  datatype Account = Account(gameName: Option<string>, tagLine: Option<string>)

  /** The `riven` summoner: `summoner_level` is an `i64`. */
  datatype RiotSummoner = RiotSummoner(puuid: Puuid, summonerLevel: int, profileIconId: I32)

  /** The `Summoner` entity handed back to the caller; `updated_at` is the caller's clock. */
  datatype Summoner = Summoner(
    id: int,
    gameName: string,
    tagLine: string,
    puuid: Puuid,
    platform: string,
    updatedAt: Timestamp,
    summonerLevel: int,
    profileIconId: int)

  datatype Stored = Stored(table: Table, summoner: Summoner)

  function UnwrapOrDefault(o: Option<string>): string {
    match o
    case None => ""
    case Some(s) => s
  }

  /** The entity both single-row writes return, built from their inputs and not from the stored row. */
  function Reported(id: int, platform: string, account: Account, summoner: RiotSummoner, now: Timestamp): Summoner {
    Summoner(id, UnwrapOrDefault(account.gameName), UnwrapOrDefault(account.tagLine), summoner.puuid,
             platform, now, summoner.summonerLevel, summoner.profileIconId)
  }

  /** The index of the row with this id. */
  function IdIndex(rows: seq<SummonerRow>, id: int): (r: Option<nat>)
    ensures r.Some? ==> r.value < |rows| && rows[r.value].id == id
    ensures r.None? ==> forall k | 0 <= k < |rows| :: rows[k].id != id
    decreases |rows|
  {
    if |rows| == 0 then None
    else if rows[0].id == id then Some(0)
    else match IdIndex(rows[1..], id)
      case None => None
      case Some(k) => Some(k + 1)
  }

  /**
   * `update_summoner_by_id`'s statement: sets name, tag, puuid, level
   * (`as i32`), icon and platform of the row with the id, and leaves
   * `updated_at` alone. No matching row is not an error. A missing name
   * part is bound as NULL.
   */
  function UpdateByIdStatement(t: Table, id: int, platform: string, account: Account,
                               summoner: RiotSummoner, now: Timestamp): Result<Stored, DbError>
  {
    match IdIndex(t.rows, id)
    case None => Ok(Stored(t, Reported(id, platform, account, summoner, now)))
    case Some(i) =>
      if account.gameName.None? || account.tagLine.None? then Err(NotNullViolation)
      else if exists k | 0 <= k < |t.rows| && k != i :: t.rows[k].puuid == summoner.puuid then Err(UniqueViolation)
      else
        var row := t.rows[i].(gameName := account.gameName.value, tagLine := account.tagLine.value,
                              puuid := summoner.puuid, summonerLevel := AsI32(summoner.summonerLevel),
                              profileIconId := summoner.profileIconId, platform := platform);
        Ok(Stored(t.(rows := t.rows[i := row]), Reported(id, platform, account, summoner, now)))
  }

  /**
   * `insert_summoner`'s statement: a new row with the next id; `updated_at`
   * is not listed, so it takes the column's default, `columnDefault`.
   */
  function InsertStatement(t: Table, platform: string, account: Account, summoner: RiotSummoner,
                           now: Timestamp, columnDefault: Option<Timestamp>): Result<Stored, DbError>
  {
    if account.gameName.None? || account.tagLine.None? then Err(NotNullViolation)
    else if Lookup(t.rows, summoner.puuid).Some? then Err(UniqueViolation)
    else
      var row := SummonerRow(t.nextId, account.gameName.value, account.tagLine.value, summoner.puuid, platform,
                             AsI32(summoner.summonerLevel), summoner.profileIconId, columnDefault);
      Ok(Stored(Table(t.rows + [row], t.nextId + 1), Reported(t.nextId, platform, account, summoner, now)))
  }

  /** `insert_or_update_account_and_summoner`: update by id if the (puuid, platform) lookup succeeds, insert on any lookup error. */
  function InsertOrUpdate(t: Table, platform: string, account: Account, summoner: RiotSummoner,
                          now: Timestamp, columnDefault: Option<Timestamp>): Result<Stored, DbError>
  {
    match SummonerIdByPuuid(t.rows, platform, summoner.puuid)
    case Ok(id) => UpdateByIdStatement(t, id, platform, account, summoner, now)
    case Err(_) => InsertStatement(t, platform, account, summoner, now, columnDefault)
  }

  /**
   * The update by id changes the one row with that id, and in it only the
   * six bound columns; its `updated_at` is not refreshed, and the returned
   * entity carries the caller's clock and the unwrapped `i64` level.
   */
  lemma UpdateByIdEffect(t: Table, i: nat, platform: string, account: Account, summoner: RiotSummoner, now: Timestamp)
    requires Valid(t) && i < |t.rows|
    requires account.gameName.Some? && account.tagLine.Some?
    requires forall k | 0 <= k < |t.rows| && k != i :: t.rows[k].puuid != summoner.puuid
    ensures var r := UpdateByIdStatement(t, t.rows[i].id, platform, account, summoner, now);
      && r.Ok?
      && |r.value.table.rows| == |t.rows| && r.value.table.nextId == t.nextId
      && (forall k | 0 <= k < |t.rows| && k != i :: r.value.table.rows[k] == t.rows[k])
      && r.value.table.rows[i] == SummonerRow(t.rows[i].id, account.gameName.value, account.tagLine.value,
           summoner.puuid, platform, AsI32(summoner.summonerLevel), summoner.profileIconId, t.rows[i].updatedAt)
      && r.value.summoner.updatedAt == now
      && r.value.summoner.summonerLevel == summoner.summonerLevel
      && Valid(r.value.table)
  {
    var r := IdIndex(t.rows, t.rows[i].id);
    assert r.Some?;
    assert r.value == i;
  }

  /** A level outside `i32` is stored wrapped but reported as given. */
  lemma UpdateReportsUnstoredLevel(t: Table, i: nat, platform: string, account: Account, summoner: RiotSummoner, now: Timestamp)
    requires Valid(t) && i < |t.rows|
    requires account.gameName.Some? && account.tagLine.Some?
    requires forall k | 0 <= k < |t.rows| && k != i :: t.rows[k].puuid != summoner.puuid
    requires !InI32(summoner.summonerLevel)
    ensures var r := UpdateByIdStatement(t, t.rows[i].id, platform, account, summoner, now).value;
      r.table.rows[i].summonerLevel != r.summoner.summonerLevel
  {
    UpdateByIdEffect(t, i, platform, account, summoner, now);
  }

  /** Every single-row write keeps the table's constraints. */
  lemma SingleRowWritesValid(t: Table, id: int, platform: string, account: Account, summoner: RiotSummoner,
                             now: Timestamp, columnDefault: Option<Timestamp>)
    requires Valid(t)
    ensures UpdateByIdStatement(t, id, platform, account, summoner, now).Ok? ==>
              Valid(UpdateByIdStatement(t, id, platform, account, summoner, now).value.table)
    ensures InsertStatement(t, platform, account, summoner, now, columnDefault).Ok? ==>
              Valid(InsertStatement(t, platform, account, summoner, now, columnDefault).value.table)
  {
    UpdateByIdValid(t, id, platform, account, summoner, now);
    if InsertStatement(t, platform, account, summoner, now, columnDefault).Ok? {
      assert RowIndex(t.rows, summoner.puuid).None?;
    }
  }

  /** The update by id keeps every id and leaves no two rows with one puuid. */
  lemma UpdateByIdValid(t: Table, id: int, platform: string, account: Account, summoner: RiotSummoner, now: Timestamp)
    requires Valid(t)
    ensures UpdateByIdStatement(t, id, platform, account, summoner, now).Ok? ==>
              Valid(UpdateByIdStatement(t, id, platform, account, summoner, now).value.table)
  {
    var r := UpdateByIdStatement(t, id, platform, account, summoner, now);
    match IdIndex(t.rows, id)
    case None =>
    case Some(i) =>
      if r.Ok? {
        var u := r.value.table;
        assert |u.rows| == |t.rows| && u.nextId == t.nextId;
        assert forall k | 0 <= k < |t.rows| :: u.rows[k].id == t.rows[k].id;
        assert forall k | 0 <= k < |t.rows| && k != i :: u.rows[k] == t.rows[k];
        assert u.rows[i].puuid == summoner.puuid;
      }
  }

  /**
   * The dispatch does exactly one of the two writes: on a found (puuid,
   * platform) it updates that row in place and adds none; otherwise it
   * appends exactly one row, the new puuid's.
   */
  lemma InsertOrUpdateOneOf(t: Table, platform: string, account: Account, summoner: RiotSummoner,
                            now: Timestamp, columnDefault: Option<Timestamp>)
    requires Valid(t)
    ensures var r := InsertOrUpdate(t, platform, account, summoner, now, columnDefault);
      r.Ok? ==>
        if SummonerIdByPuuid(t.rows, platform, summoner.puuid).Ok? then
          && |r.value.table.rows| == |t.rows| && r.value.table.nextId == t.nextId
          && r.value.summoner.id == SummonerIdByPuuid(t.rows, platform, summoner.puuid).value
        else
          && r.value.table.rows[..|t.rows|] == t.rows
          && |r.value.table.rows| == |t.rows| + 1
          && r.value.table.rows[|t.rows|].puuid == summoner.puuid
          && r.value.summoner.id == t.nextId
  {
    var r := InsertOrUpdate(t, platform, account, summoner, now, columnDefault);
    if r.Ok? && SummonerIdByPuuid(t.rows, platform, summoner.puuid).Err? {
      var rows := r.value.table.rows;
      assert rows[..|t.rows|] == t.rows;
    }
  }

  /**
   * The lookup filters by platform, but the unique index on puuid does
   * not: a known puuid stored under another platform makes the dispatch
   * try an insert, which fails.
   */
  lemma InsertOrUpdateOtherPlatform(t: Table, i: nat, platform: string, account: Account, summoner: RiotSummoner,
                                    now: Timestamp, columnDefault: Option<Timestamp>)
    requires Valid(t) && i < |t.rows|
    requires t.rows[i].puuid == summoner.puuid && t.rows[i].platform != platform
    requires account.gameName.Some? && account.tagLine.Some?
    ensures InsertOrUpdate(t, platform, account, summoner, now, columnDefault) == Err(UniqueViolation)
  {
    LookupAt(t, i);
  }

  // ---------------------------------------------------------------- the table

  /** The `summoners` table as the statements above change it. */
  class SummonerTable {
    var rows: seq<SummonerRow>
    var nextId: int

    function State(): Table
      reads this
    {
      Table(rows, nextId)
    }

    /** An empty table whose `id` sequence starts at 1. */
    constructor()
      ensures State() == Table([], 1) && Valid(State())
    {
      rows, nextId := [], 1;
    }

    /** `Summoner::bulk_update`. */
    method BulkUpdate(batch: seq<TempSummoner>) returns (r: Result<(), DbError>)
      requires Valid(State())
      modifies this
      ensures Valid(State())
      ensures BulkUpdateStatement(old(State()), batch).Ok? ==>
                r == Ok(()) && State() == BulkUpdateStatement(old(State()), batch).value
      ensures BulkUpdateStatement(old(State()), batch).Err? ==>
                r == Err(BulkUpdateStatement(old(State()), batch).error) && State() == old(State())
    {
      var res := BulkUpdateStatement(State(), batch);
      match res
      case Err(e) =>
        return Err(e);
      case Ok(t) =>
        BulkUpdateValid(State(), batch);
        rows, nextId := t.rows, t.nextId;
        return Ok(());
    }

    /** `Summoner::bulk_insert`, pairing the returned ids by position as its `zip` does. */
    method BulkInsert(batch: seq<TempSummoner>) returns (r: Result<map<Puuid, int>, DbError>)
      requires Valid(State())
      modifies this
      ensures Valid(State())
      ensures BulkInsertStatement(old(State()), batch).Ok? ==>
                var ins := BulkInsertStatement(old(State()), batch).value;
                r == Ok(ZipReturnedIds(batch, Ids(ins.returning))) && State() == ins.table
      ensures BulkInsertStatement(old(State()), batch).Err? ==>
                r == Err(BulkInsertStatement(old(State()), batch).error) && State() == old(State())
    {
      var res := BulkInsertStatement(State(), batch);
      match res
      case Err(e) =>
        return Err(e);
      case Ok(ins) =>
        BulkInsertValid(State(), batch);
        rows, nextId := ins.table.rows, ins.table.nextId;
        return Ok(ZipReturnedIds(batch, Ids(ins.returning)));
    }

    /** `Summoner::fetch_existing_summoners`. */
    method FetchExistingSummoners(puuids: seq<Puuid>) returns (m: map<Puuid, (int, I32)>)
      requires forall i | 0 <= i < |rows| && rows[i].puuid in puuids :: rows[i].updatedAt.Some?
      ensures m == ExistingSummoners(rows, puuids)
    {
      m := ExistingSummoners(rows, puuids);
    }

    /** `Summoner::find_summoner_ids_by_puuids`. */
    method FindSummonerIdsByPuuids(platform: string, puuids: seq<Puuid>) returns (m: map<Puuid, int>)
      ensures m == SummonerIdsByPuuids(rows, platform, puuids)
    {
      m := SummonerIdsByPuuids(rows, platform, puuids);
    }

    /** `Summoner::find_summoner_id_by_puuid`. */
    method FindSummonerIdByPuuid(platform: string, puuid: Puuid) returns (r: Result<int, DbError>)
      ensures r == SummonerIdByPuuid(rows, platform, puuid)
    {
      r := SummonerIdByPuuid(rows, platform, puuid);
    }

    /** `Summoner::update_summoner_by_id`, with `now` for `Utc::now()`. */
    method UpdateSummonerById(id: int, platform: string, account: Account, summoner: RiotSummoner, now: Timestamp)
      returns (r: Result<Summoner, DbError>)
      requires Valid(State())
      modifies this
      ensures Valid(State())
      ensures var s := UpdateByIdStatement(old(State()), id, platform, account, summoner, now);
        && (s.Ok? ==> r == Ok(s.value.summoner) && State() == s.value.table)
        && (s.Err? ==> r == Err(s.error) && State() == old(State()))
    {
      var s := UpdateByIdStatement(State(), id, platform, account, summoner, now);
      SingleRowWritesValid(State(), id, platform, account, summoner, now, None);
      match s
      case Err(e) =>
        return Err(e);
      case Ok(st) =>
        rows, nextId := st.table.rows, st.table.nextId;
        return Ok(st.summoner);
    }

    /** `Summoner::insert_summoner`, with `now` for `Utc::now()` and `columnDefault` for the `updated_at` default. */
    method InsertSummoner(platform: string, account: Account, summoner: RiotSummoner, now: Timestamp,
                          columnDefault: Option<Timestamp>)
      returns (r: Result<Summoner, DbError>)
      requires Valid(State())
      modifies this
      ensures Valid(State())
      ensures var s := InsertStatement(old(State()), platform, account, summoner, now, columnDefault);
        && (s.Ok? ==> r == Ok(s.value.summoner) && State() == s.value.table)
        && (s.Err? ==> r == Err(s.error) && State() == old(State()))
    {
      var s := InsertStatement(State(), platform, account, summoner, now, columnDefault);
      SingleRowWritesValid(State(), 0, platform, account, summoner, now, columnDefault);
      match s
      case Err(e) =>
        return Err(e);
      case Ok(st) =>
        rows, nextId := st.table.rows, st.table.nextId;
        return Ok(st.summoner);
    }

    /** `Summoner::insert_or_update_account_and_summoner`. */
    method InsertOrUpdateAccountAndSummoner(platform: string, account: Account, summoner: RiotSummoner,
                                            now: Timestamp, columnDefault: Option<Timestamp>)
      returns (r: Result<Summoner, DbError>)
      requires Valid(State())
      modifies this
      ensures Valid(State())
      ensures var s := InsertOrUpdate(old(State()), platform, account, summoner, now, columnDefault);
        && (s.Ok? ==> r == Ok(s.value.summoner) && State() == s.value.table)
        && (s.Err? ==> r == Err(s.error) && State() == old(State()))
    {
      var found := FindSummonerIdByPuuid(platform, summoner.puuid);
      match found
      case Ok(id) =>
        r := UpdateSummonerById(id, platform, account, summoner, now);
      case Err(_) =>
        r := InsertSummoner(platform, account, summoner, now, columnDefault);
    }
  }
}
