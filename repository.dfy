/**
  The Postgres repository's rows and its write policy. `marketing_data` and
  `sales_data` are maps from the primary key to the stored row; a save
  inserts when the record carries no id and updates by id otherwise, and an
  update never inserts. The list reads build their statement with the
  shared builder; running it is the database's business.
 */
module Repository {
  import opened Placeholders
  import opened ListQuery
  import opened Numbering

  /** An instant as the database stores it; the repository only copies and compares them. */
  datatype Time = Time(unixNanos: int)

  /** A Go `float64`, kept as its IEEE 754 bits; the repository only copies it. */
  datatype Float64 = Float64(bits: bv64)

  /** The data columns of a `marketing_data` row, the fields a save writes. */
  datatype MarketingColumns = MarketingColumns(
    date: string, sourceId: int, expense: Float64, leads: int, trialsScheduled: int,
    trialsConducted: int, payments: int, totalAmount: Float64, isSaved: bool)

  /** The data columns of a `sales_data` row, the fields a save writes. */
  datatype SalesColumns = SalesColumns(
    date: string, teamId: int, leads: int, trialsScheduled: int, trialsConducted: int,
    payments: int, totalAmount: Float64, kaspiRefund: Float64, isSaved: bool)

  /** A record of either table: its id, its data columns and its two timestamps. */
  datatype Record<C> = Record(id: int, columns: C, createdAt: Time, updatedAt: Time)

  type MarketingData = Record<MarketingColumns>
  type SalesData = Record<SalesColumns>

  /** Every stored row sits under its own id, and ids are positive (a serial key). */
  predicate Keyed<C>(rows: map<int, Record<C>>) {
    forall id | id in rows :: id > 0 && rows[id].id == id
  }

  // ---------------------------------------------------------------------------
  // The write policy on one table

  /** `INSERT ... RETURNING id`: a new row under the key the database hands out, both timestamps `now`. */
  function Inserted<C>(rows: map<int, Record<C>>, data: Record<C>, now: Time, freshId: int): (r: map<int, Record<C>>)
    ensures r.Keys == rows.Keys + {freshId}
    ensures r[freshId].id == freshId && r[freshId].createdAt == r[freshId].updatedAt == now
  {
    rows[freshId := Record(freshId, data.columns, now, now)]
  }

  /**
    `UPDATE ... WHERE id = data.id`: the row with that id gets the record's
    data columns and `updated_at = now`; no row matches, nothing changes.
   */
  function Updated<C>(rows: map<int, Record<C>>, data: Record<C>, now: Time): (r: map<int, Record<C>>)
    ensures r.Keys == rows.Keys
    ensures forall id | id in rows :: r[id].id == rows[id].id && r[id].createdAt == rows[id].createdAt
  {
    if data.id in rows then rows[data.id := rows[data.id].(columns := data.columns, updatedAt := now)] else rows
  }

  /** A save: insert when the record has no id yet, update by id otherwise. */
  function Saved<C>(rows: map<int, Record<C>>, data: Record<C>, now: Time, freshId: int): (r: map<int, Record<C>>)
    ensures data.id == 0 ==> r.Keys == rows.Keys + {freshId}
    ensures data.id != 0 ==> r.Keys == rows.Keys
  {
    if data.id == 0 then Inserted(rows, data, now, freshId) else Updated(rows, data, now)
  }

  /**
    Inserting adds exactly one row, under the fresh id, holding the
    record's data columns and created and updated at `now`; the other rows
    stay as they were.
   */
  lemma {:induction false} InsertAddsOneRow<C>(rows: map<int, Record<C>>, data: Record<C>, now: Time, freshId: int)
    requires freshId !in rows
    ensures var r := Inserted(rows, data, now, freshId);
      && r.Keys == rows.Keys + {freshId}
      && r[freshId].id == freshId && r[freshId].columns == data.columns
      && r[freshId].createdAt == now && r[freshId].updatedAt == now
      && forall id | id in rows :: r[id] == rows[id]
  {
  }

  /**
    Updating an existing id overwrites that row's data columns and stamps
    `updated_at`, keeps its id and `created_at`, and leaves every other row
    as it was.
   */
  lemma {:induction false} UpdateOverwritesRow<C>(rows: map<int, Record<C>>, data: Record<C>, now: Time)
    requires data.id in rows
    ensures var r := Updated(rows, data, now);
      && r.Keys == rows.Keys
      && r[data.id].columns == data.columns && r[data.id].updatedAt == now
      && r[data.id].id == rows[data.id].id && r[data.id].createdAt == rows[data.id].createdAt
      && forall id | id in rows && id != data.id :: r[id] == rows[id]
  {
  }

  /** An update never inserts: the keys stay the same, and an unknown id changes nothing. */
  lemma {:induction false} UpdateNeverInserts<C>(rows: map<int, Record<C>>, data: Record<C>, now: Time)
    ensures Updated(rows, data, now).Keys == rows.Keys
    ensures data.id !in rows ==> Updated(rows, data, now) == rows
  {
  }

  /** Saving keeps every row under its own positive id. */
  lemma {:induction false} SaveKeepsKeyed<C>(rows: map<int, Record<C>>, data: Record<C>, now: Time, freshId: int)
    requires Keyed(rows)
    requires data.id == 0 ==> freshId > 0
    ensures Keyed(Saved(rows, data, now, freshId))
  {
  }

  /**
    On a keyed table, a record whose id is not positive (a path id of 0 or
    below) matches no row, so updating with it changes nothing.
   */
  lemma {:induction false} UpdateNonPositiveId<C>(rows: map<int, Record<C>>, data: Record<C>, now: Time)
    requires Keyed(rows) && data.id <= 0
    ensures Updated(rows, data, now) == rows
  {
    assert data.id !in rows;
  }

  /** Updating with the same record twice at the same instant is updating once. */
  lemma {:induction false} UpdateIdempotent<C>(rows: map<int, Record<C>>, data: Record<C>, now: Time)
    ensures Updated(Updated(rows, data, now), data, now) == Updated(rows, data, now)
  {
  }

  /**
    A record inserted at `t0` and saved again later under the id it was
    given keeps `created_at = t0` and carries the later data and `updated_at`.
   */
  lemma {:induction false} CreatedAtSurvivesLaterSaves<C>(
    rows: map<int, Record<C>>, first: Record<C>, t0: Time, freshId: int, second: C, t1: Time)
    requires first.id == 0 && freshId !in rows && freshId != 0
    ensures var r := Saved(Saved(rows, first, t0, freshId), Record(freshId, second, first.createdAt, first.updatedAt), t1, freshId);
      r[freshId] == Record(freshId, second, t0, t1)
  {
  }

  // ---------------------------------------------------------------------------
  // The repository

  class PostgresRepository {
    var marketing: map<int, MarketingData>
    var sales: map<int, SalesData>

    ghost predicate Valid()
      reads this
    {
      Keyed(marketing) && Keyed(sales)
    }

    /** A repository over tables that already hold the given rows, each under its own id. */
    constructor (marketingRows: map<int, MarketingData>, salesRows: map<int, SalesData>)
      requires Keyed(marketingRows) && Keyed(salesRows)
      ensures Valid() && marketing == marketingRows && sales == salesRows
    {
      marketing, sales := marketingRows, salesRows;
    }

    /** The statement and arguments `GetMarketingData` sends to the database. */
    method GetMarketingData(from: string, to: string, sourceIDs: seq<string>) returns (query: string, args: seq<Arg>)
      ensures query == QueryText(MarketingList, Conditions(MarketingList, from, to, sourceIDs))
      ensures args == Args(from, to, sourceIDs)
      ensures Scan(query) == Range(1, |args|)
    {
      query, args := BuildListQuery(MarketingList, from, to, sourceIDs);
      MarketingListWellFormed();
      PlaceholdersNumbered(MarketingList, from, to, sourceIDs);
    }

    /** The statement and arguments `GetSalesData` sends to the database. */
    method GetSalesData(from: string, to: string, teamIDs: seq<string>) returns (query: string, args: seq<Arg>)
      ensures query == QueryText(SalesList, Conditions(SalesList, from, to, teamIDs))
      ensures args == Args(from, to, teamIDs)
      ensures Scan(query) == Range(1, |args|)
    {
      query, args := BuildListQuery(SalesList, from, to, teamIDs);
      SalesListWellFormed();
      PlaceholdersNumbered(SalesList, from, to, teamIDs);
    }

    /**
      Inserts a record without an id, under `freshId`, the key the database
      hands out, and returns it with that id filled in; updates a record
      with an id. `now` is the clock reading the statement carries.
     */
    method SaveMarketingData(data: MarketingData, now: Time, freshId: int) returns (saved: MarketingData)
      requires Valid()
      requires data.id == 0 ==> freshId > 0 && freshId !in marketing
      modifies this
      ensures Valid()
      ensures marketing == Saved(old(marketing), data, now, freshId) && sales == old(sales)
      ensures saved == if data.id == 0 then data.(id := freshId) else data
      ensures data.id < 0 ==> marketing == old(marketing)
    {
      saved := data;
      if data.id == 0 {
        marketing := Inserted(marketing, data, now, freshId);
        saved := saved.(id := freshId);
        return;
      }
      if data.id < 0 {
        UpdateNonPositiveId(marketing, data, now);
      }
      marketing := Updated(marketing, data, now);
    }

    method SaveSalesData(data: SalesData, now: Time, freshId: int) returns (saved: SalesData)
      requires Valid()
      requires data.id == 0 ==> freshId > 0 && freshId !in sales
      modifies this
      ensures Valid()
      ensures sales == Saved(old(sales), data, now, freshId) && marketing == old(marketing)
      ensures saved == if data.id == 0 then data.(id := freshId) else data
      ensures data.id < 0 ==> sales == old(sales)
    {
      saved := data;
      if data.id == 0 {
        sales := Inserted(sales, data, now, freshId);
        saved := saved.(id := freshId);
        return;
      }
      if data.id < 0 {
        UpdateNonPositiveId(sales, data, now);
      }
      sales := Updated(sales, data, now);
    }

    /** Updates the row with the record's id; a missing id is not an error and changes nothing. */
    method UpdateMarketingData(data: MarketingData, now: Time)
      requires Valid()
      modifies this
      ensures Valid()
      ensures marketing == Updated(old(marketing), data, now) && sales == old(sales)
      ensures data.id <= 0 ==> marketing == old(marketing)
    {
      if data.id <= 0 {
        UpdateNonPositiveId(marketing, data, now);
      }
      marketing := Updated(marketing, data, now);
    }

    method UpdateSalesData(data: SalesData, now: Time)
      requires Valid()
      modifies this
      ensures Valid()
      ensures sales == Updated(old(sales), data, now) && marketing == old(marketing)
      ensures data.id <= 0 ==> sales == old(sales)
    {
      if data.id <= 0 {
        UpdateNonPositiveId(sales, data, now);
      }
      sales := Updated(sales, data, now);
    }
  }
}
