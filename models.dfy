/** The persisted `post` record and the external `latlongdata` source table. */
module Models {
  import opened Wrappers
  import opened Values
  import opened Columns

  /** A row of the `post` table; status and area are nullable, name, lat and lng are not. */
  datatype Post = Post(id: int, name: string, lat: real, lng: real, status: Option<string>, area: Option<string>)

  /** The post table keyed by primary key: every stored post carries its own key as id. */
  predicate KeyedById(posts: map<int, Post>) {
    forall id :: id in posts ==> posts[id].id == id
  }

  /** The external table as DESCRIBE and SELECT * would show it: column names and rows of cells. */
  datatype Table = Table(columns: seq<string>, rows: seq<seq<Raw>>)

  /** One row of `SELECT <post_id col>, <latitude col>, <longitude col> FROM latlongdata`. */
  datatype Row = Row(postId: Raw, latitude: Raw, longitude: Raw)

  /** The cell in column `k`, read as NULL where the row is shorter. */
  function Cell(cells: seq<Raw>, k: nat): Raw {
    if k < |cells| then cells[k] else Null
  }

  /** The SELECT through a column mapping: one triple per stored row, in table order. */
  function Select(t: Table, m: ColumnMap): (rows: seq<Row>)
    ensures |rows| == |t.rows|
    ensures forall i :: 0 <= i < |rows| ==>
              rows[i] == Row(Cell(t.rows[i], m.postId), Cell(t.rows[i], m.latitude), Cell(t.rows[i], m.longitude))
  {
    seq(|t.rows|, i requires 0 <= i < |t.rows| =>
      Row(Cell(t.rows[i], m.postId), Cell(t.rows[i], m.latitude), Cell(t.rows[i], m.longitude)))
  }
}
