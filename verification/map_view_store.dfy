/**
 * The row-list and metadata helpers of the map view's data store
 * (useMapViewDataStore): `formatData`, `addEmptyRow`, the geo-data column
 * lookup of `loadMapMeta` and the guards of the three API-calling functions.
 * API responses are parameters; Vue reactivity is not modelled.
 */
module MapViewStore {

  import opened Wrappers
  import opened JsStrings

  /** A record of the table, field name to value. */
  type Record = map<string, string>

  /** `rowMeta`: `{}` or `{ new: true }`. */
  datatype RowMeta = RowMeta(isNew: bool)

  datatype RowState = RowState(row: Record, oldRow: Record, rowMeta: RowMeta)

  const UnmarkedMeta: RowMeta := RowMeta(false)
  /** The element `addEmptyRow` inserts. */
  const EmptyRow: RowState := RowState(map[], map[], RowMeta(true))

  /** `formatData`: each record becomes an unmodified, unmarked row state. */
  function FormatData(list: seq<Record>): (r: seq<RowState>)
    ensures |r| == |list|
    ensures forall i :: 0 <= i < |r| ==> r[i].row == list[i] && r[i].oldRow == list[i] && r[i].rowMeta == UnmarkedMeta
  {
    seq(|list|, i requires 0 <= i < |list| => RowState(list[i], list[i], UnmarkedMeta))
  }

  /** The current records of a row list. */
  function Records(data: seq<RowState>): (r: seq<Record>)
    ensures |r| == |data|
  {
    if data == [] then [] else [data[0].row] + Records(data[1..])
  }

  /** Formatting loses nothing: the records read back in order, and none counts as edited. */
  lemma {:induction false} FormatDataRoundTrip(list: seq<Record>)
    ensures Records(FormatData(list)) == list
    ensures forall i :: 0 <= i < |list| ==> FormatData(list)[i].row == FormatData(list)[i].oldRow
  {
    if list != [] {
      assert FormatData(list)[1..] == FormatData(list[1..]);
      FormatDataRoundTrip(list[1..]);
    }
  }

  /** The position an insertion by `splice` lands at: negative counts from the end, both ends clamp. */
  function SpliceStart(start: int, n: nat): (p: nat)
    ensures p <= n
    ensures 0 <= start <= n ==> p == start
    ensures start > n ==> p == n
    ensures start < 0 && n + start >= 0 ==> p == n + start
    ensures n + start < 0 ==> p == 0
  {
    if start < 0 then (if n + start < 0 then 0 else n + start) else if start > n then n else start
  }

  /**
   * `addEmptyRow`, whose index defaults to the list's length: splice the empty row in, then return
   * the element now at index `addAfter` (`undefined` past the end).
   */
  function AddEmptyRow(data: seq<RowState>, addAfter: Option<int>): (r: (seq<RowState>, Option<RowState>))
    ensures |r.0| == |data| + 1
    ensures var k := addAfter.GetOr(|data|);
            0 <= k <= |data| ==>
              && r.0[k] == EmptyRow
              && r.0[..k] == data[..k]
              && r.0[k + 1..] == data[k..]
              && r.1 == Some(EmptyRow)
    ensures var k := addAfter.GetOr(|data|);
            k > |data| ==> r.0 == data + [EmptyRow] && r.1.None?
    ensures addAfter.None? ==> r.0 == data + [EmptyRow] && r.1 == Some(EmptyRow)
    // a negative index counts back from the end; nothing is found at it afterwards
    ensures var k := addAfter.GetOr(|data|);
            var p := if |data| + k < 0 then 0 else |data| + k;
            k < 0 ==> r.0 == data[..p] + [EmptyRow] + data[p..] && r.1.None?
  {
    var k := addAfter.GetOr(|data|);
    var p := SpliceStart(k, |data|);
    var data' := data[..p] + [EmptyRow] + data[p..];
    assert data'[..p] == data[..p];
    assert data'[p + 1..] == data[p..];
    (data', if 0 <= k < |data'| then Some(data'[k]) else None)
  }

  /** Removing the inserted row gives back the original list. */
  lemma AddEmptyRowUndo(data: seq<RowState>, k: nat)
    requires k <= |data|
    ensures var d := AddEmptyRow(data, Some(k)).0;
            d[..k] + d[k + 1..] == data
  {
    var d := AddEmptyRow(data, Some(k)).0;
    assert data == data[..k] + data[k..];
  }

  /** A column of the table meta. */
  datatype Column = Column(id: Option<string>, title: string)

  /** The looked-up geo-data column, or the `{}` the lookup falls back to. */
  datatype GeoColumn = Found(column: Column) | EmptyObject

  /** The first column whose id is the meta's geo-data column id, or an empty object when none is. */
  function GeoDataColumn(columns: seq<Column>, fkGeoDataColId: Option<string>): (r: GeoColumn)
    ensures r.EmptyObject? <==> forall i :: 0 <= i < |columns| ==> columns[i].id != fkGeoDataColId
    ensures r.Found? ==> exists i :: (0 <= i < |columns| && columns[i] == r.column && columns[i].id == fkGeoDataColId &&
                                      forall j :: 0 <= j < i ==> columns[j].id != fkGeoDataColId)
  {
    if columns == [] then EmptyObject
    else if columns[0].id == fkGeoDataColId then
      // index 0 witnesses the existential of the first-match clause
      assert 0 < |columns| && columns[0] == Found(columns[0]).column && columns[0].id == fkGeoDataColId;
      Found(columns[0])
    else
      var r := GeoDataColumn(columns[1..], fkGeoDataColId);
      if r.Found? then
        var i :| 0 <= i < |columns[1..]| && columns[1..][i] == r.column && columns[1..][i].id == fkGeoDataColId &&
                 forall j :: 0 <= j < i ==> columns[1..][j].id != fkGeoDataColId;
        assert columns[i + 1] == r.column;
        r
      else r
  }

  type MapMeta = map<string, string>

  /** The store's state: `formattedData`, `mapMetaData` and `geoDataFieldColumn`. */
  datatype MapStore = MapStore(formattedData: seq<RowState>, mapMetaData: MapMeta, geoDataFieldColumn: Option<GeoColumn>)

  function MetaValue(m: MapMeta, key: string): Option<string> {
    if key in m then Some(m[key]) else None
  }

  /** The shared guard of `loadMapMeta` and `loadMapData`: a view id and the table's columns. */
  predicate CanLoad(viewId: Option<string>, columns: Option<seq<Column>>) {
    Truthy(viewId) && columns.Some?
  }

  /** `loadMapMeta`, given the map meta the API returns. */
  function LoadMapMeta(st: MapStore, viewId: Option<string>, columns: Option<seq<Column>>, fetched: MapMeta): (r: MapStore)
    ensures !CanLoad(viewId, columns) ==> r == st
    ensures CanLoad(viewId, columns) ==>
              && r.mapMetaData == fetched
              && r.formattedData == st.formattedData
              && r.geoDataFieldColumn == Some(GeoDataColumn(columns.value, MetaValue(fetched, "fk_geo_data_col_id")))
  {
    if !CanLoad(viewId, columns) then st
    else st.(mapMetaData := fetched,
             geoDataFieldColumn := Some(GeoDataColumn(columns.value, MetaValue(fetched, "fk_geo_data_col_id"))))
  }

  /** `loadMapData`, given the rows the API returns. */
  function LoadMapData(st: MapStore, viewId: Option<string>, columns: Option<seq<Column>>, fetched: seq<Record>): (r: MapStore)
    ensures !CanLoad(viewId, columns) ==> r == st
    ensures CanLoad(viewId, columns) ==>
              && r.formattedData == FormatData(fetched)
              && Records(r.formattedData) == fetched
              && r.mapMetaData == st.mapMetaData
              && r.geoDataFieldColumn == st.geoDataFieldColumn
  {
    if !CanLoad(viewId, columns) then st
    else
      FormatDataRoundTrip(fetched);
      st.(formattedData := FormatData(fetched))
  }

  /** `updateMapMeta`: the payload sent, the current meta overridden by the update; nothing without the edit permission. */
  function UpdateMapMeta(st: MapStore, viewId: Option<string>, editable: bool, updateObj: MapMeta): (r: Option<MapMeta>)
    ensures r.Some? <==> Truthy(viewId) && editable
    ensures r.Some? ==> r.value.Keys == st.mapMetaData.Keys + updateObj.Keys
    ensures r.Some? ==> forall k :: k in updateObj ==> r.value[k] == updateObj[k]
    ensures r.Some? ==> forall k :: k in st.mapMetaData && k !in updateObj ==> r.value[k] == st.mapMetaData[k]
  {
    if !Truthy(viewId) || !editable then None else Some(st.mapMetaData + updateObj)
  }
}
