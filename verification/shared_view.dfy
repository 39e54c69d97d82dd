/**
 * The where clause NcMetaMgr's `getSharedViewData` lists a shared view with:
 * the request's own filter and the view's saved filter, joined with `~and`
 * when both are given.
 */
module SharedView {

  import opened Wrappers
  import opened JsStrings

  /**
   * Starting from `''`, append the request filter when it is truthy, then the
   * view filter: bare when nothing precedes it, as `~and(<view>)` otherwise.
   */
  function MergeWhere(requestWhere: Option<string>, viewWhere: Option<string>): (w: string)
    ensures !Truthy(requestWhere) && !Truthy(viewWhere) ==> w == ""
    ensures Truthy(requestWhere) && !Truthy(viewWhere) ==> w == requestWhere.value
    ensures !Truthy(requestWhere) && Truthy(viewWhere) ==> w == viewWhere.value
    ensures Truthy(requestWhere) && Truthy(viewWhere) ==> w == requestWhere.value + "~and(" + viewWhere.value + ")"
  {
    var w := if Truthy(requestWhere) then requestWhere.value else "";
    if Truthy(viewWhere) then (if w != "" then w + "~and(" + viewWhere.value + ")" else viewWhere.value) else w
  }

  /** The merged filter is empty only when neither filter is given, and always begins with the request's filter. */
  lemma MergeKeepsRequestFilter(requestWhere: Option<string>, viewWhere: Option<string>)
    ensures MergeWhere(requestWhere, viewWhere) == "" <==> !Truthy(requestWhere) && !Truthy(viewWhere)
    ensures Truthy(requestWhere) ==> StartsWith(MergeWhere(requestWhere, viewWhere), requestWhere.value)
    ensures Truthy(viewWhere) ==> |MergeWhere(requestWhere, viewWhere)| >= |viewWhere.value|
  {
    var w := MergeWhere(requestWhere, viewWhere);
    if Truthy(requestWhere) && Truthy(viewWhere) {
      assert w == requestWhere.value + ("~and(" + viewWhere.value + ")");
    }
  }
}
