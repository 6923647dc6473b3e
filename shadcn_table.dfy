/**
 * The generic table: an empty-state message for no data, otherwise one
 * header cell per column and one row per item whose cells come from the
 * column's renderer or, without one, from the item's field named by the key.
 * `V` stands for whatever a cell displays; `lookup(item, key)` is the
 * dynamic property access `item[key]`.
 */
module ShadcnTable {
  import opened Wrappers

  datatype Column<!T, V> = Column(key: string, header: string, render: Option<T -> V>)

  datatype Rendered<V> = NoData(message: string) | Table(header: seq<string>, body: seq<seq<V>>)

  const EmptyMessage := "No data available"

  function CellOf<T, V>(col: Column<T, V>, item: T, lookup: (T, string) -> V): V {
    match col.render
    case Some(f) => f(item)
    case None => lookup(item, col.key)
  }

  function RowOf<T, V>(columns: seq<Column<T, V>>, item: T, lookup: (T, string) -> V): (row: seq<V>)
    ensures |row| == |columns|
  {
    seq(|columns|, i requires 0 <= i < |columns| => CellOf(columns[i], item, lookup))
  }

  function Render<T, V>(data: seq<T>, columns: seq<Column<T, V>>, lookup: (T, string) -> V): (r: Rendered<V>)
    ensures r.NoData? <==> |data| == 0
    ensures r.NoData? ==> r.message == EmptyMessage
    ensures r.Table? ==> |r.header| == |columns|
    ensures r.Table? ==> forall i :: 0 <= i < |columns| ==> r.header[i] == columns[i].header
    ensures r.Table? ==> |r.body| == |data|
    ensures r.Table? ==> forall j, i :: 0 <= j < |data| && 0 <= i < |columns| ==>
      |r.body[j]| == |columns| &&
      r.body[j][i] == (if columns[i].render.Some? then columns[i].render.value(data[j]) else lookup(data[j], columns[i].key))
  {
    if |data| == 0 then NoData(EmptyMessage)
    else Table(
      seq(|columns|, i requires 0 <= i < |columns| => columns[i].header),
      seq(|data|, j requires 0 <= j < |data| => RowOf(columns, data[j], lookup)))
  }

  /** Adding an item to non-empty data adds exactly its row at the end and leaves the header alone. */
  lemma RenderAppend<T, V>(data: seq<T>, item: T, columns: seq<Column<T, V>>, lookup: (T, string) -> V)
    requires |data| > 0
    ensures Render(data + [item], columns, lookup).header == Render(data, columns, lookup).header
    ensures Render(data + [item], columns, lookup).body
         == Render(data, columns, lookup).body + [RowOf(columns, item, lookup)]
  {
    var before := Render(data, columns, lookup).body;
    var after := Render(data + [item], columns, lookup).body;
    assert forall j :: 0 <= j < |data| ==> after[j] == before[j] by {
      forall j | 0 <= j < |data| ensures after[j] == before[j] {
        assert (data + [item])[j] == data[j];
      }
    }
  }
}
