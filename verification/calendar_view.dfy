/**
 * The CalendarView model: `get`, `insert` and `update` over the calendar meta
 * table (a list of rows, searched first match first) and the object cache
 * (a map from scoped keys to whatever was stored, `null` included). The
 * referenced views and `JSON.stringify` are parameters.
 */
module CalendarView {

  import opened Wrappers
  import opened JsStrings

  /** `meta` as given: a JSON string, or an object still to be serialised. */
  datatype Meta = MetaText(text: string) | MetaObject(fields: map<string, string>)

  /** A row of the calendar meta table, and the object cached for it. */
  datatype CalendarRow = CalendarRow(fkViewId: string, baseId: Option<string>, sourceId: Option<string>,
                                     meta: Option<Meta>, fkCoverImageColId: Option<string>)

  /** The calendar-view and calendar-view-column cache scopes, each followed by an id: distinct scopes, distinct keys. */
  datatype CacheKey = CalendarViewKey(viewId: string) | CalendarViewColumnKey(calendarId: string)

  datatype State = State(store: seq<CalendarRow>, cache: map<CacheKey, Option<CalendarRow>>)

  /** The meta lookup by view id: the first stored row of the view, if any. */
  function FindRow(store: seq<CalendarRow>, viewId: string): (r: Option<CalendarRow>)
    ensures r.Some? ==> r.value in store && r.value.fkViewId == viewId
    ensures r.Some? ==> exists k :: (0 <= k < |store| && store[k] == r.value &&
                                     forall j :: 0 <= j < k ==> store[j].fkViewId != viewId)
    ensures r.None? <==> forall i :: 0 <= i < |store| ==> store[i].fkViewId != viewId
  {
    if store == [] then None
    else if store[0].fkViewId == viewId then
      // index 0 witnesses the existential of the first-row clause
      assert 0 < |store| && store[0] == Some(store[0]).value;
      Some(store[0])
    else
      var r := FindRow(store[1..], viewId);
      if r.Some? then
        var k :| 0 <= k < |store[1..]| && store[1..][k] == r.value &&
                 forall j :: 0 <= j < k ==> store[1..][j].fkViewId != viewId;
        assert store[k + 1] == r.value;
        r
      else r
  }

  /** The cache answers `get` for this view: a non-empty id and a stored non-null object. */
  predicate CacheHit(cache: map<CacheKey, Option<CalendarRow>>, viewId: string) {
    viewId != "" && CalendarViewKey(viewId) in cache && cache[CalendarViewKey(viewId)].Some?
  }

  /**
   * `get`: the cached object when there is one; otherwise the store's row,
   * which is then cached (a missing row caches `null`, which never hits).
   */
  function Get(s: State, viewId: string): (r: (State, Option<CalendarRow>))
    ensures r.0.store == s.store
    ensures CacheHit(s.cache, viewId) ==> r.0 == s && r.1 == s.cache[CalendarViewKey(viewId)]
    ensures !CacheHit(s.cache, viewId) ==>
              r.1 == FindRow(s.store, viewId) && r.0.cache == s.cache[CalendarViewKey(viewId) := r.1]
  {
    if CacheHit(s.cache, viewId) then (s, s.cache[CalendarViewKey(viewId)])
    else
      var view := FindRow(s.store, viewId);
      (s.(cache := s.cache[CalendarViewKey(viewId) := view]), view)
  }

  /** Asking twice gives the same answer. */
  lemma GetTwiceSameAnswer(s: State, viewId: string)
    ensures Get(Get(s, viewId).0, viewId).1 == Get(s, viewId).1
  {
  }

  /** Every non-null cached view object is what the store holds for that view. */
  predicate CacheCoherent(s: State) {
    forall k :: k in s.cache && k.CalendarViewKey? && s.cache[k].Some? ==> s.cache[k] == FindRow(s.store, k.viewId)
  }

  /** With a coherent cache, `get` answers what the store holds and keeps the cache coherent. */
  lemma GetCoherent(s: State, viewId: string)
    requires CacheCoherent(s)
    ensures Get(s, viewId).1 == FindRow(s.store, viewId)
    ensures CacheCoherent(Get(s, viewId).0)
  {
  }

  // ------------------------------------------------------------------ insert

  /** What `View.get` returns for the referenced view. */
  datatype ViewRef = ViewRef(baseId: Option<string>, sourceId: Option<string>)

  /** The input of `insert` (a partial calendar view). */
  datatype InsertInput = InsertInput(fkViewId: string, baseId: Option<string>, sourceId: Option<string>,
                                     meta: Option<Meta>, fkCoverImageColId: Option<string>)

  datatype InsertError =
    /** `viewRef.base_id` is read while `View.get` found nothing. */
    | ViewNotFound

  /** The object `insert` writes: base and source come from the referenced view unless both were supplied. */
  function InsertObject(view: InsertInput, views: map<string, ViewRef>): (r: Result<CalendarRow, InsertError>)
    ensures r.Success? ==> r.value.fkViewId == view.fkViewId && r.value.meta == view.meta && r.value.fkCoverImageColId.None?
    ensures Truthy(view.baseId) && Truthy(view.sourceId) ==>
              r == Success(CalendarRow(view.fkViewId, view.baseId, view.sourceId, view.meta, None))
    ensures !(Truthy(view.baseId) && Truthy(view.sourceId)) ==>
              (r.Success? <==> view.fkViewId in views) &&
              (r.Success? ==> r.value.baseId == views[view.fkViewId].baseId && r.value.sourceId == views[view.fkViewId].sourceId)
  {
    if Truthy(view.baseId) && Truthy(view.sourceId) then
      Success(CalendarRow(view.fkViewId, view.baseId, view.sourceId, view.meta, None))
    else if view.fkViewId !in views then Failure(ViewNotFound)
    else
      var ref := views[view.fkViewId];
      Success(CalendarRow(view.fkViewId, ref.baseId, ref.sourceId, view.meta, None))
  }

  /** `insert`: append the row, then answer `get` for its view. */
  function Insert(s: State, view: InsertInput, views: map<string, ViewRef>): (r: Result<(State, Option<CalendarRow>), InsertError>)
    ensures r.Success? <==> InsertObject(view, views).Success?
    ensures r.Success? ==> r.value.0.store == s.store + [InsertObject(view, views).value]
    ensures r.Success? && !CacheHit(s.cache, view.fkViewId) && FindRow(s.store, view.fkViewId).None? ==>
              r.value.1 == Some(InsertObject(view, views).value)
    // the answer is the read-back through the cache: a cached row wins over the new one
    ensures r.Success? ==>
              r.value.1 == if CacheHit(s.cache, view.fkViewId) then s.cache[CalendarViewKey(view.fkViewId)]
                           else FindRow(s.store + [InsertObject(view, views).value], view.fkViewId)
    ensures r.Success? && CacheHit(s.cache, view.fkViewId) ==> r.value.0.cache == s.cache
    ensures r.Success? && !CacheHit(s.cache, view.fkViewId) ==>
              r.value.0.cache == s.cache[CalendarViewKey(view.fkViewId) := r.value.1]
  {
    var row :- InsertObject(view, views);
    var s' := s.(store := s.store + [row]);
    FindRowAppend(s.store, row, view.fkViewId);
    Success(Get(s', view.fkViewId))
  }

  lemma {:induction false} FindRowAppend(store: seq<CalendarRow>, row: CalendarRow, viewId: string)
    ensures FindRow(store + [row], viewId)
            == if FindRow(store, viewId).Some? then FindRow(store, viewId)
               else if row.fkViewId == viewId then Some(row) else None
  {
    if store != [] {
      assert (store + [row])[0] == store[0];
      assert (store + [row])[1..] == store[1..] + [row];
      FindRowAppend(store[1..], row, viewId);
    } else {
      assert store + [row] == [row];
    }
  }

  /** Inserting keeps a coherent cache coherent: an older row of the same view still comes first. */
  lemma InsertCoherent(s: State, view: InsertInput, views: map<string, ViewRef>)
    requires CacheCoherent(s)
    requires Insert(s, view, views).Success?
    ensures CacheCoherent(Insert(s, view, views).value.0)
  {
    var row := InsertObject(view, views).value;
    var s' := s.(store := s.store + [row]);
    forall k | k in s'.cache && k.CalendarViewKey? && s'.cache[k].Some?
      ensures s'.cache[k] == FindRow(s'.store, k.viewId)
    {
      FindRowAppend(s.store, row, k.viewId);
    }
    GetCoherent(s', view.fkViewId);
  }

  // ------------------------------------------------------------------ update

  /** The body of `update` (a partial calendar view). */
  datatype UpdateBody = UpdateBody(fkViewId: Option<string>, baseId: Option<string>, sourceId: Option<string>,
                                   meta: Option<Meta>, fkCoverImageColId: Option<string>)

  /** Only the cover-image column and the meta of the body are taken, an object meta serialised to a string. */
  datatype Patch = Patch(fkCoverImageColId: Option<string>, meta: Option<Meta>)

  function UpdatePatch(body: UpdateBody, stringify: map<string, string> -> string): (p: Patch)
    ensures p.fkCoverImageColId == body.fkCoverImageColId
    ensures body.meta.Some? && body.meta.value.MetaObject? ==> p.meta == Some(MetaText(stringify(body.meta.value.fields)))
    ensures body.meta.None? || body.meta.value.MetaText? ==> p.meta == body.meta
  {
    var meta := match body.meta
      case Some(MetaObject(o)) => Some(MetaText(stringify(o)))
      case other => other;
    Patch(body.fkCoverImageColId, meta)
  }

  /** Merging a patch into a row: the patch's present fields win. */
  function ApplyPatch(row: CalendarRow, p: Patch): (r: CalendarRow)
    ensures r.fkViewId == row.fkViewId && r.baseId == row.baseId && r.sourceId == row.sourceId
    ensures r.fkCoverImageColId == (if p.fkCoverImageColId.Some? then p.fkCoverImageColId else row.fkCoverImageColId)
    ensures r.meta == (if p.meta.Some? then p.meta else row.meta)
  {
    row.(fkCoverImageColId := if p.fkCoverImageColId.Some? then p.fkCoverImageColId else row.fkCoverImageColId,
         meta := if p.meta.Some? then p.meta else row.meta)
  }

  /** The meta update by view id: every stored row of the view is patched. */
  function PatchRows(store: seq<CalendarRow>, calendarId: string, p: Patch): (r: seq<CalendarRow>)
    ensures |r| == |store|
    ensures forall i :: 0 <= i < |store| ==>
              r[i] == if store[i].fkViewId == calendarId then ApplyPatch(store[i], p) else store[i]
  {
    seq(|store|, i requires 0 <= i < |store| =>
      if store[i].fkViewId == calendarId then ApplyPatch(store[i], p) else store[i])
  }

  /** Patch an existing non-null cache entry; never create one. */
  function MergeIntoCache(cache: map<CacheKey, Option<CalendarRow>>, key: CacheKey, p: Patch)
    : (r: map<CacheKey, Option<CalendarRow>>)
    ensures r.Keys == cache.Keys
    ensures forall k :: k in cache && k != key ==> r[k] == cache[k]
    ensures key in cache && cache[key].Some? ==> r[key] == Some(ApplyPatch(cache[key].value, p))
    ensures key in cache && cache[key].None? ==> r[key] == cache[key]
  {
    if key in cache && cache[key].Some? then cache[key := Some(ApplyPatch(cache[key].value, p))] else cache
  }

  /** `update` as written: the cache entry it merges into is keyed by the calendar-view-column scope. */
  function Update(s: State, calendarId: string, body: UpdateBody, stringify: map<string, string> -> string): (r: State)
    ensures r.store == PatchRows(s.store, calendarId, UpdatePatch(body, stringify))
    ensures r.cache == MergeIntoCache(s.cache, CalendarViewColumnKey(calendarId), UpdatePatch(body, stringify))
  {
    var p := UpdatePatch(body, stringify);
    State(PatchRows(s.store, calendarId, p), MergeIntoCache(s.cache, CalendarViewColumnKey(calendarId), p))
  }

  /** Only the cover-image column and the meta of the view's rows change; other views' rows do not. */
  lemma UpdateWritesOnlyCoverAndMeta(s: State, calendarId: string, body: UpdateBody, stringify: map<string, string> -> string)
    ensures var r := Update(s, calendarId, body, stringify);
            && |r.store| == |s.store|
            && (forall i :: 0 <= i < |s.store| ==>
                  r.store[i].fkViewId == s.store[i].fkViewId && r.store[i].baseId == s.store[i].baseId
                  && r.store[i].sourceId == s.store[i].sourceId)
            && (forall i :: 0 <= i < |s.store| && s.store[i].fkViewId != calendarId ==> r.store[i] == s.store[i])
            && (forall i :: 0 <= i < |s.store| && s.store[i].fkViewId == calendarId && body.fkCoverImageColId.Some? ==>
                  r.store[i].fkCoverImageColId == body.fkCoverImageColId)
            && (forall i :: (0 <= i < |s.store| && s.store[i].fkViewId == calendarId && body.meta.Some?
                             && body.meta.value.MetaObject?) ==>
                  r.store[i].meta == Some(MetaText(stringify(body.meta.value.fields))))
  {
  }

  /** `update` never touches what `get` serves from the cache. */
  lemma UpdateKeepsCachedGet(s: State, calendarId: string, body: UpdateBody, stringify: map<string, string> -> string,
                             viewId: string)
    requires CacheHit(s.cache, viewId)
    ensures Get(Update(s, calendarId, body, stringify), viewId).1 == Get(s, viewId).1
  {
  }

  /** A cached view outlives an update of its cover image: `get` keeps serving the old value. */
  lemma UpdateLeavesCachedViewStale()
    ensures var row := CalendarRow("v", None, None, None, None);
            var s := State([row], map[CalendarViewKey("v") := Some(row)]);
            var body := UpdateBody(None, None, None, None, Some("c"));
            var s' := Update(s, "v", body, o => "");
            && CacheCoherent(s)
            && Get(s', "v").1 == Some(row)
            && FindRow(s'.store, "v") == Some(row.(fkCoverImageColId := Some("c")))
  {
    var row := CalendarRow("v", None, None, None, None);
    var s := State([row], map[CalendarViewKey("v") := Some(row)]);
    var s' := Update(s, "v", UpdateBody(None, None, None, None, Some("c")), o => "");
    assert s'.store[0] == row.(fkCoverImageColId := Some("c"));
  }

  /** The update with the cache entry `get` reads: the calendar-view scope. */
  function UpdateCoherent(s: State, calendarId: string, body: UpdateBody, stringify: map<string, string> -> string)
    : (r: State)
    ensures r.store == Update(s, calendarId, body, stringify).store
    ensures r.cache == MergeIntoCache(s.cache, CalendarViewKey(calendarId), UpdatePatch(body, stringify))
  {
    var p := UpdatePatch(body, stringify);
    State(PatchRows(s.store, calendarId, p), MergeIntoCache(s.cache, CalendarViewKey(calendarId), p))
  }

  lemma {:induction false} FindRowPatched(store: seq<CalendarRow>, calendarId: string, p: Patch, viewId: string)
    ensures FindRow(PatchRows(store, calendarId, p), viewId)
            == if viewId != calendarId || FindRow(store, viewId).None? then FindRow(store, viewId)
               else Some(ApplyPatch(FindRow(store, viewId).value, p))
  {
    if store != [] {
      assert PatchRows(store, calendarId, p)[1..] == PatchRows(store[1..], calendarId, p);
      FindRowPatched(store[1..], calendarId, p, viewId);
    }
  }

  /** The corrected update keeps a coherent cache coherent. */
  lemma UpdateCoherentKeepsCoherence(s: State, calendarId: string, body: UpdateBody, stringify: map<string, string> -> string)
    requires CacheCoherent(s)
    ensures CacheCoherent(UpdateCoherent(s, calendarId, body, stringify))
  {
    var p := UpdatePatch(body, stringify);
    var r := UpdateCoherent(s, calendarId, body, stringify);
    forall k | k in r.cache && k.CalendarViewKey? && r.cache[k].Some?
      ensures r.cache[k] == FindRow(r.store, k.viewId)
    {
      FindRowPatched(s.store, calendarId, p, k.viewId);
    }
  }

  /** After the corrected update, `get` of the view answers its first row with the patch applied. */
  lemma UpdateCoherentGetSeesUpdate(s: State, calendarId: string, body: UpdateBody, stringify: map<string, string> -> string)
    requires CacheCoherent(s)
    ensures var before := FindRow(s.store, calendarId);
            Get(UpdateCoherent(s, calendarId, body, stringify), calendarId).1
            == if before.None? then None else Some(ApplyPatch(before.value, UpdatePatch(body, stringify)))
  {
    var r := UpdateCoherent(s, calendarId, body, stringify);
    UpdateCoherentKeepsCoherence(s, calendarId, body, stringify);
    GetCoherent(r, calendarId);
    FindRowPatched(s.store, calendarId, UpdatePatch(body, stringify), calendarId);
  }
}
