# NocoDB core helpers in Dafny

This project models several pieces of NocoDB, the open-source spreadsheet
front end for SQL databases:

- **Rollup subqueries** (`genRollupSelectv2`). A rollup column aggregates one
  column of the rows linked to the current row. The builder emits one of three
  correlated subqueries:
  - has-many and one-to-one: over the child table;
  - many-to-many: over the parent table, joined through the association table.

  The knex builder is replaced by an abstract `Subquery` value. A small
  evaluation semantics runs that value over in-memory tables, which ties each
  shape to a direct definition of "the linked rows" (`RollupQuery`,
  `RollupSemantics`).
- **`PagedResponseImpl`**: the page information of a listing (page number,
  first-page and last-page flags) and the optional Fisher-Yates shuffle
  (`PagedResponse`).
- **The Backblaze B2 storage adapter's string handling**:
  - patching the legacy `s3.<region>` setting;
  - the client configuration;
  - default object parameters;
  - signed-URL key normalisation;
  - the public URL of an upload.

  (`Backblaze`.)
- **Pure helpers of `NcMetaMgr`**:
  - the route version letters `genVer` / `getRouteVersionLetter` (`RouteVersion`);
  - the ACL save validation and the per-role ACL aggregation (`Acl`);
  - the role-based relation filter of `tableXcModelGet` (`RelationFilter`);
  - the association-table construction of `xcM2MRelationCreate` (`ManyToManyRelation`);
  - the filter merge of `getSharedViewData` (`SharedView`).
- **`CalendarView`**: `get`, `insert` and `update` over the calendar meta
  table and the object cache (`CalendarView`).
- **The map view's data store** (`useMapViewDataStore`): `formatData`,
  `addEmptyRow`, the geo-data column lookup, and the guards of
  `loadMapMeta`, `loadMapData` and `updateMapMeta` (`MapViewStore`).

`Wrappers` (Option/Result) and `JsStrings` hold the JavaScript semantics the
models share:
- truthiness of strings;
- `startsWith`;
- `indexOf`;
- `replace` with a string pattern, which replaces only the first occurrence.

Modelling conventions:
- JavaScript objects whose key order matters become association lists.
- `Math.random()` draws become a `draw` function parameter.
- Database, cache and API reads become inputs.

## Model

| member | source | states |
|---|---|---|
| RollupQuery.OuterName | packages/nocodb/src/db/genRollupSelectv2.ts:59 | `alias \|\| table path`: a non-empty alias wins, an absent or empty one falls back to the table path |
| RollupQuery.BuildRollup | packages/nocodb/src/db/genRollupSelectv2.ts:46-151 | The relation type string selects the branch: `hm` and `oo` build the direct query, `mm` the association query, and any other type (belongs-to included) fails with `Unsupported relation type '<type>'`. Has-many and one-to-one never fail; many-to-many fails only without its association model. A supported type yields a builder exactly when the aggregate is a builder method, and no builder (`undefined`) otherwise. Every built query reads the related table under `__nc_rollup` and aggregates its rollup column |
| RollupQuery.DirectRollup | packages/nocodb/src/db/genRollupSelectv2.ts:47-95 | A builder is produced iff the aggregate is a builder method; otherwise the optional chain yields none. The query reads the child table under `__nc_rollup` with no join and one condition: the outer parent column (alias or parent path) equals the aliased child column |
| RollupQuery.AssocRollup | packages/nocodb/src/db/genRollupSelectv2.ts:97-146 | Fails when the association model is missing. Otherwise it succeeds, with a builder iff the aggregate is a builder method. The query reads the parent table under `__nc_rollup`, inner-joins the association table on its parent column = the aliased parent column, and requires its child column = the outer child column (alias or child path) |
| RollupQuery.OneToOneMatchesHasMany | packages/nocodb/src/db/genRollupSelectv2.ts:47-95 | A request of type `oo` builds the same query as the same request of type `hm` |
| RollupQuery.OuterAliasReplacesCorrelatedTable | packages/nocodb/src/db/genRollupSelectv2.ts:46-142 | A non-empty outer alias qualifies the outer side of the correlation: the parent side for direct links, the child side for many-to-many |
| RollupQuery.NoAliasUsesTablePath | packages/nocodb/src/db/genRollupSelectv2.ts:46-142 | Without an alias, the correlation names the parent table path (direct links) or the child table path (many-to-many) |
| RollupSemantics.DirectRollupSelectsChildren | packages/nocodb/src/db/genRollupSelectv2.ts:47-90 | Evaluating a has-many or one-to-one rollup for an outer row yields the rollup values of exactly the child rows whose foreign key equals the outer row's key, in table order (SQL NULL matches nothing) |
| RollupSemantics.AssocRollupSelectsLinkedParents | packages/nocodb/src/db/genRollupSelectv2.ts:97-142 | Evaluating a many-to-many rollup yields each parent row's value once per association row linking it to the outer child row |
| PagedResponse.LastPageNumber | packages/nocodb/src/lib/meta/helpers/PagedResponse.ts:31-33 | With q = rows / page size as an exact quotient: the last page is never 0; it is the ceiling of q (r − 1 < q ≤ r) unless that ceiling is 0 (−1 < q ≤ 0), in which case it is 1 |
| PagedResponse.MakePageInfo | packages/nocodb/src/lib/meta/helpers/PagedResponse.ts:25-33 | A zero offset is page 1. Otherwise page × limit = offset + limit. The first-page flag is page = 1, the last-page flag is page = last page, and the total and page size are copied |
| PagedResponse.AlignedOffsetPage | packages/nocodb/src/lib/meta/helpers/PagedResponse.ts:27 | The offset k × limit lands on page k + 1 |
| PagedResponse.LastPageIsIntegerCeiling | packages/nocodb/src/lib/meta/helpers/PagedResponse.ts:31-33 | For a non-negative row count, the last page is the integer ceiling (rows + size − 1) div size, or 1 when there are no rows |
| PagedResponse.AlignedPageFlags | packages/nocodb/src/lib/meta/helpers/PagedResponse.ts:27-33 | On an aligned offset k × limit, the first-page flag holds iff k = 0, and the last-page flag holds iff k + 1 is the integer last page |
| PagedResponse.Shuffle | packages/nocodb/src/lib/meta/helpers/PagedResponse.ts:18-23 | Whatever the random draws, the shuffled list is a permutation of the input |
| PagedResponse.NewPagedResponse | packages/nocodb/src/lib/meta/helpers/PagedResponse.ts:4-35 | The list is a permutation of the input, and unchanged without `shuffle`. Page info is present iff a count is given. It carries the count, the limit, the page and the flags described above; the limit and offset default to 25 and 0 |
| Backblaze.PatchRegion | packages/nocodb/src/plugins/backblaze/Backblaze.ts:86-94 | One leading `s3.` is removed, and nothing else changes |
| Backblaze.Init | packages/nocodb/src/plugins/backblaze/Backblaze.ts:30-43 | The client's region is the patched region, its endpoint is `https://s3.<that region>.backblazeb2.com`, and the credentials are passed through |
| Backblaze.LegacyRegionConfiguresSameClient | packages/nocodb/src/plugins/backblaze/Backblaze.ts:30-40 | The settings `s3.<region>` and `<region>` configure the same client |
| Backblaze.DefaultParams | packages/nocodb/src/plugins/backblaze/Backblaze.ts:23-28 | The bucket is passed through. The ACL is the configured one when it is non-empty, else `public-read` |
| Backblaze.DefaultParamsAclNeverEmpty | packages/nocodb/src/plugins/backblaze/Backblaze.ts:23-28 | The default ACL is never empty: it is `public-read` or the configured value |
| JsStrings.ReplaceFirst | packages/nocodb/src/plugins/backblaze/Backblaze.ts:55 | `replace` with a string pattern and a replacement without `$` splices the replacement in at the first occurrence only, and leaves the string alone when there is none |
| JsStrings.ReplacePrefix | packages/nocodb/src/plugins/backblaze/Backblaze.ts:55 | Replacing a prefix of the string with `''` drops exactly that prefix |
| Backblaze.SignedUrlKey | packages/nocodb/src/plugins/backblaze/Backblaze.ts:50-56 | A key under `<bucket>/nc/uploads` or `<bucket>/nc/thumbnails` loses its `<bucket>/` prefix. Any other key is unchanged |
| Backblaze.SignedUrlRequest | packages/nocodb/src/plugins/backblaze/Backblaze.ts:45-66 | The signed request uses the normalised key and the bucket unless a `Key` / `Bucket` path parameter overrides them. Every other path parameter is carried unchanged and nothing else is added. A given expiry is passed through; the default is 7200 seconds |
| Backblaze.SignedUrlKeyRestoresPrefix | packages/nocodb/src/plugins/backblaze/Backblaze.ts:50-56 | For a bucket-prefixed key, the normalised key starts with `nc/uploads` or `nc/thumbnails`, and `<bucket>/` + it is the original key |
| Backblaze.UploadUrlRepeatsLegacyPrefix | packages/nocodb/src/plugins/backblaze/Backblaze.ts:77-79 | With a legacy `s3.<region>` setting, the URL the code builds contains `.s3.s3.<region>`, three characters more than the patched URL |
| Backblaze.UploadUrl | packages/nocodb/src/plugins/backblaze/Backblaze.ts:77-79 | As written: the URL starts with `https://<bucket>.s3.<region>.`, the region unpatched, and ends with the key |
| Backblaze.PatchedUploadUrl | packages/nocodb/src/plugins/backblaze/Backblaze.ts:77-79 | The corrected public URL is `https://<bucket>.` + the host of the client's own endpoint + `/<key>`. It agrees with the written URL whenever the region is not legacy |
| Backblaze.PatchedUploadUrlIgnoresLegacyPrefix | packages/nocodb/src/plugins/backblaze/Backblaze.ts:86-94 | With the patched region, a legacy and a plain region setting give the same public URL |
| Backblaze.Upload | packages/nocodb/src/plugins/backblaze/Backblaze.ts:68-84 | A URL is returned iff the upload completed with data. It is `https://<bucket>.` + the client endpoint's host + `/<key>`, which is the written URL whenever the region is not legacy (corrected, see Findings) |
| RouteVersion.Base26Digits | packages/nocodb/src/lib/noco/meta/NcMetaMgr.ts:2254-2255 | `toString(26)` yields at least one digit, each below 26 |
| RouteVersion.DigitsRoundTrip | packages/nocodb/src/lib/noco/meta/NcMetaMgr.ts:2254-2255 | The base-26 digits read back to the number |
| RouteVersion.AlphabetIsRotation | packages/nocodb/src/lib/noco/meta/NcMetaMgr.ts:2253 | The letter table is the alphabet rotated so that digit 0 is `v` |
| RouteVersion.Letters | packages/nocodb/src/lib/noco/meta/NcMetaMgr.ts:2256-2258 | One letter per digit |
| RouteVersion.LettersRoundTrip | packages/nocodb/src/lib/noco/meta/NcMetaMgr.ts:2253-2257 | The letter mapping is invertible on digits below 26 |
| RouteVersion.GenVer | packages/nocodb/src/lib/noco/meta/NcMetaMgr.ts:2252-2259 | A version is at least one lower-case letter followed by `1` |
| RouteVersion.GenVerRoundTrip | packages/nocodb/src/lib/noco/meta/NcMetaMgr.ts:2252-2259 | Decoding `genVer(i)` gives back `i` |
| RouteVersion.GenVerInjective | packages/nocodb/src/lib/noco/meta/NcMetaMgr.ts:2252-2259 | Distinct indices give distinct versions |
| RouteVersion.GenVerExamples | packages/nocodb/src/lib/noco/meta/NcMetaMgr.ts:2252-2259 | `genVer(0) = v1`, `genVer(1) = w1`, `genVer(26) = wv1` |
| RouteVersion.RouteVersionFrom | packages/nocodb/src/lib/noco/meta/NcMetaMgr.ts:2241-2249 | The search finds the first matching alias at or after its start. It answers with that database's truthy prefix or `genVer` of its index, and with nothing exactly when no database matches |
| RouteVersion.RouteVersionLetter | packages/nocodb/src/lib/noco/meta/NcMetaMgr.ts:2239-2250 | For the first database with the alias, the answer is its configured API prefix when one is set, else `genVer(index)`. There is no answer iff no database has the alias |
| RouteVersion.UnprefixedLettersDistinct | packages/nocodb/src/lib/noco/meta/NcMetaMgr.ts:2239-2259 | Without configured prefixes, two aliases present in the list get different letters |
| Acl.CheckOps | packages/nocodb/src/lib/noco/meta/NcMetaMgr.ts:1622-1630 | One role's values pass iff every value is boolean or a uniform column rule. Otherwise the first value in key order that is not accepted decides the error: `Please upgrade` for a non-uniform rule, the `TypeError` for an unreadable value (absent, or no `columns`) |
| Acl.SaveValidation | packages/nocodb/src/lib/noco/meta/NcMetaMgr.ts:1621-1631 | The save passes iff every operation value of every role is accepted. Otherwise the first offending value, over roles and then operations in key order, decides the error, with the same choice between `Please upgrade` and the `TypeError` |
| Acl.SaveRefusedIffNonUniform | packages/nocodb/src/lib/noco/meta/NcMetaMgr.ts:1621-1631 | When every value is readable, `Please upgrade` is thrown iff some column rule has differing values |
| Acl.StepOp | packages/nocodb/src/lib/noco/meta/NcMetaMgr.ts:1595-1607 | After one ACL, the operation is truthy iff it was truthy before or the ACL grants it. A truthy value is never overwritten |
| Acl.StepRole | packages/nocodb/src/lib/noco/meta/NcMetaMgr.ts:1592-1609 | Each of the four operations is updated independently by the same step |
| Acl.InitialGrants | packages/nocodb/src/lib/noco/meta/NcMetaMgr.ts:1580-1583 | Every listed role starts with all four operations `false`, and no other role is present |
| Acl.ApplyRow | packages/nocodb/src/lib/noco/meta/NcMetaMgr.ts:1590-1610 | One ACL row adds an entry for each role it names and leaves every other entry as it was |
| Acl.ApplyRows | packages/nocodb/src/lib/noco/meta/NcMetaMgr.ts:1586-1611 | Over all rows, a role is present iff it was before or some row names it, and a role no row names keeps its entry |
| Acl.ApplyRowTruth | packages/nocodb/src/lib/noco/meta/NcMetaMgr.ts:1590-1610 | After one ACL row, a role's operation is truthy iff it was before or some entry of the row for that role grants it. Unmentioned roles are untouched, and mentioned roles are added |
| Acl.ApplyRowsTruth | packages/nocodb/src/lib/noco/meta/NcMetaMgr.ts:1586-1611 | The same over all rows of all databases |
| Acl.AggregatedAcl | packages/nocodb/src/lib/noco/meta/NcMetaMgr.ts:1573-1611 | A role is reported iff it is listed or some ACL row names it, and a listed role no row names is denied every operation |
| Acl.AggregatedAclCharacterised | packages/nocodb/src/lib/noco/meta/NcMetaMgr.ts:1573-1616 | A role's aggregated operation is truthy iff some stored ACL grants it. Every listed role is reported, and a listed role no ACL mentions stays all `false` |
| Acl.AggregationMonotone | packages/nocodb/src/lib/noco/meta/NcMetaMgr.ts:1586-1611 | More ACL rows never withdraw a grant |
| RelationFilter.SelectRows | packages/nocodb/src/lib/noco/meta/NcMetaMgr.ts:1781-1799 | A row is selected iff it is a has-many row pointing at the table or a belongs-to row of the table |
| RelationFilter.GroupDisabled | packages/nocodb/src/lib/noco/meta/NcMetaMgr.ts:1802-1814 | Every row's key is grouped, and the last row's key holds that row's `disabled` flag |
| RelationFilter.GroupDisabledLastWins | packages/nocodb/src/lib/noco/meta/NcMetaMgr.ts:1802-1814 | A key is grouped iff some row has it, and it holds the `disabled` flag of the last such row |
| RelationFilter.FilterRelations | packages/nocodb/src/lib/noco/meta/NcMetaMgr.ts:1819-1828 | A relation is kept iff it is in the list and some active role has it enabled, and the list never grows |
| RelationFilter.FilterRelationsAppend | packages/nocodb/src/lib/noco/meta/NcMetaMgr.ts:1819-1840 | The filter distributes over concatenation, so kept relations stay in their order |
| RelationFilter.ModelMetaForRoles | packages/nocodb/src/lib/noco/meta/NcMetaMgr.ts:1777-1841 | A creator gets the meta unchanged. Otherwise each present belongsTo / hasMany list is the filter of that list: entries are only removed, the kept ones stay in their order, and a relation is kept iff some active role has not disabled it. An absent list stays absent, and other keys are untouched |
| RelationFilter.NothingDisabledKeepsAll | packages/nocodb/src/lib/noco/meta/NcMetaMgr.ts:1818-1841 | With no disabled rows, a user with an active role sees every relation |
| ManyToManyRelation.FirstPk | packages/nocodb/src/lib/noco/meta/NcMetaMgr.ts:2305-2306 | The first primary-key column in column order, or nothing iff there is none |
| ManyToManyRelation.AssocColumnFor | packages/nocodb/src/lib/noco/meta/NcMetaMgr.ts:2310-2334 | An association column is `<table>_id` under both names, a required, non-increment primary key with no default, marked `altered: 1`, and copies the data type, precision, scale and unsigned flag of the primary key it references |
| ManyToManyRelation.AssocTableName | packages/nocodb/src/lib/noco/meta/NcMetaMgr.ts:2336 | The name is the prefix (empty when unset), `_nc_m2m_`, the parent and child table names joined by `_`, then `_` and a decimal number below 1000 |
| ManyToManyRelation.PlanM2M | packages/nocodb/src/lib/noco/meta/NcMetaMgr.ts:2305-2448 | Nothing is created iff either table lacks a primary key. Otherwise the association table is named as above from the two table names. Its columns are `<child>_id` then `<parent>_id`: required, non-increment primary keys displayed under their own names, marked `altered: 1` and with no default, each copying the data type, its precision and scale, and the unsigned flag of the child's or parent's first primary key. The two `real` relations go from them to the parent and child primary keys, and every other request argument is passed to both relation calls unchanged. Real relations are created iff the request's `type` is `real` |
| ManyToManyRelation.RelationsMatchAssocColumns | packages/nocodb/src/lib/noco/meta/NcMetaMgr.ts:2308-2381 | Each relation starts at an association column typed like the primary key it points to |
| ManyToManyRelation.SelfRelationRepeatsColumnName | packages/nocodb/src/lib/noco/meta/NcMetaMgr.ts:2310-2334 | Relating a table to itself gives the association table two columns of the same name |
| SharedView.MergeWhere | packages/nocodb/src/lib/noco/meta/NcMetaMgr.ts:2757-2765 | The merged filter is: empty; either filter alone; or `<request>~and(<view>)` when both are given |
| SharedView.MergeKeepsRequestFilter | packages/nocodb/src/lib/noco/meta/NcMetaMgr.ts:2757-2765 | The merge is empty iff neither filter is given, always begins with the request's filter, and is never shorter than the view's |
| CalendarView.FindRow | packages/nocodb/src/models/CalendarView.ts:36-38 | The first stored row of the view in store order, or nothing iff the view has none |
| CalendarView.Get | packages/nocodb/src/models/CalendarView.ts:28-43 | A non-null cache entry for a non-empty id is answered and changes nothing. Otherwise the store's row is answered and cached (null included), and the store is unchanged |
| CalendarView.GetTwiceSameAnswer | packages/nocodb/src/models/CalendarView.ts:28-43 | Asking twice gives the same answer |
| CalendarView.GetCoherent | packages/nocodb/src/models/CalendarView.ts:28-43 | With a coherent cache, `get` answers what the store holds and keeps the cache coherent |
| CalendarView.InsertObject | packages/nocodb/src/models/CalendarView.ts:45-58 | The written row has the view id and meta. Base and source are the given ones when both are present, else the referenced view's; a missing referenced view fails |
| CalendarView.Insert | packages/nocodb/src/models/CalendarView.ts:45-63 | Succeeds iff the object can be built. The row is appended, and the answer is read back through the cache: a cached row of the view wins, else the store's first row of the view, which is the new row when the view had none. The cache gains that answer when it had no entry, else is unchanged |
| CalendarView.FindRowAppend | packages/nocodb/src/models/CalendarView.ts:60-62 | Appending a row changes the lookup only for a view that had no row |
| CalendarView.InsertCoherent | packages/nocodb/src/models/CalendarView.ts:45-63 | Inserting keeps a coherent cache coherent |
| CalendarView.UpdatePatch | packages/nocodb/src/models/CalendarView.ts:74-78 | Only the cover column and the meta are taken, and an object meta is serialised |
| CalendarView.ApplyPatch | packages/nocodb/src/models/CalendarView.ts:81 | The patch's present fields win, and the view, base and source ids never change |
| CalendarView.PatchRows | packages/nocodb/src/models/CalendarView.ts:99-101 | Rows of the view are patched, all others are unchanged, and the length is kept |
| CalendarView.MergeIntoCache | packages/nocodb/src/models/CalendarView.ts:80-84 | Only an existing non-null entry under the key is patched. No entry is created, and other entries are untouched |
| CalendarView.Update | packages/nocodb/src/models/CalendarView.ts:65-102 | As written: the store's rows of the view are patched, and the cache entry under the calendar-view-column key is merged |
| CalendarView.UpdateWritesOnlyCoverAndMeta | packages/nocodb/src/models/CalendarView.ts:74-101 | Only the cover column and the meta of the view's rows change: identity fields are kept and other views' rows are untouched |
| CalendarView.UpdateKeepsCachedGet | packages/nocodb/src/models/CalendarView.ts:71-84 | An update never changes what `get` serves from its cache |
| CalendarView.UpdateLeavesCachedViewStale | packages/nocodb/src/models/CalendarView.ts:71-84 | Concrete case: the cache is coherent, the update sets a cover column, and `get` still returns the old row while the store holds the new one |
| CalendarView.UpdateCoherent | packages/nocodb/src/models/CalendarView.ts:65-102 | Corrected update: the same store writes, with the merge into the calendar-view key that `get` reads |
| CalendarView.FindRowPatched | packages/nocodb/src/models/CalendarView.ts:99-101 | After patching, the lookup of the patched view is the patched first row, and other lookups are unchanged |
| CalendarView.UpdateCoherentKeepsCoherence | packages/nocodb/src/models/CalendarView.ts:65-102 | The corrected update keeps a coherent cache coherent |
| CalendarView.UpdateCoherentGetSeesUpdate | packages/nocodb/src/models/CalendarView.ts:28-102 | After the corrected update, `get` of the view answers its first row with the patch applied, or nothing when the view has no row |
| MapViewStore.FormatData | packages/nc-gui/composables/useMapViewDataStore.ts:9-14 | Each record becomes a row state whose row and old row are that record, with empty row meta, in order |
| MapViewStore.FormatDataRoundTrip | packages/nc-gui/composables/useMapViewDataStore.ts:9-14 | The formatted rows read back to the input list, and none counts as edited |
| MapViewStore.SpliceStart | packages/nc-gui/composables/useMapViewDataStore.ts:120 | `splice`'s start: an in-range index is kept, one past the end clamps to the length, and a negative one counts back from the end, clamped at 0 |
| MapViewStore.AddEmptyRow | packages/nc-gui/composables/useMapViewDataStore.ts:119-127 | The list grows by one. For 0 ≤ addAfter ≤ length, the new empty row is inserted there, the rows before and after are kept, and it is returned. Past the end it is appended and nothing is returned. A negative index inserts at length + index (at least 0) and nothing is returned. By default it is appended and returned |
| MapViewStore.AddEmptyRowUndo | packages/nc-gui/composables/useMapViewDataStore.ts:119-127 | Removing the inserted row gives back the original list |
| MapViewStore.GeoDataColumn | packages/nc-gui/composables/useMapViewDataStore.ts:48-49 | The first column whose id equals the meta's geo-data column id, or `{}` iff no column's id does |
| MapViewStore.LoadMapMeta | packages/nc-gui/composables/useMapViewDataStore.ts:45-50 | Without a view id or columns, nothing changes. Otherwise the fetched meta is stored and the geo column is looked up in it |
| MapViewStore.LoadMapData | packages/nc-gui/composables/useMapViewDataStore.ts:52-64 | Without a view id or columns, nothing changes. Otherwise the rows become the formatted fetched list, which reads back to it, and the meta and geo column are kept |
| MapViewStore.UpdateMapMeta | packages/nc-gui/composables/useMapViewDataStore.ts:66-72 | A payload is sent iff there is a view id and the user may edit. It holds every key of the stored meta and the update, and the update's values win |

## Left out

- SQL rendering: knex's query text, identifier quoting per dialect, and the aggregate functions' SQL meaning. Aggregates are applied to the collected values outside the model; the evaluation semantics stops at the sequence of values.
- The async lookups of `genRollupSelectv2`: relation column, child, parent and association models. They become fields of the request.
- `getTnPath` is a foreign resolver whose code is not part of this model. Its results are inputs. The has-many branch passes the model and the other branches pass `table_name`; both are taken to resolve to the same path.
- The `dbDriver.raw(NC_ERR_MM_MODEL_NOT_FOUND)` fallback of the many-to-many branch is unreachable. `mmModel.id` is read before the null test, so a missing association model throws and is modelled as `MissingAssociationModel`.
- RollupQuery.BuildRollup: an aggregate name is either a builder method or absent. A name that is a non-callable, non-nullish property of the knex builder makes the optional call throw a `TypeError`; that case is not modelled.
- RollupSemantics.DirectRollupSelectsChildren: assumes the outer qualifier is not `__nc_rollup`. Under that name the outer row would be shadowed.
- RollupSemantics.AssocRollupSelectsLinkedParents: assumes the outer qualifier, `__nc_rollup` and the association table path are pairwise distinct.
- PagedResponse.NewPagedResponse: with a count, requires a non-zero limit (without a count nothing is divided and any limit is accepted). A zero limit divides by zero and yields IEEE infinities or NaN, and floating-point rounding is not modelled; page numbers are exact reals.
- PagedResponse.Shuffle: states only that the result is a permutation. Which permutation depends on the draws, and `Math.random()` is a parameter.
- PagedResponse.NewPagedResponse: the source shuffles the caller's array in place and the response holds that same array. The model returns a fresh sequence and says nothing about aliasing or about the caller's array afterwards.
- Backblaze.Upload: returns the corrected URL of the Findings table, not the `.s3.s3.` URL the code builds for a legacy region setting. That URL is `Backblaze.UploadUrl`.
- The S3 client, the `Upload` transfer and the URL signer are foreign calls. Their results are inputs, and the logged-and-rethrown upload error is not modelled.
- `JSON.parse` failures, and ACL or meta values of types the code never stores (numbers or strings as operation values, a `null` role ACL).
- Acl.AggregatedAclCharacterised: states the truthiness of each aggregated operation, not its exact stored value. A non-boolean falsy value is carried as read.
- RelationFilter.SelectRows: states which rows are selected, not that the database returns them in stored order; the order only matters for repeated keys.
- Role objects and ACLs are association lists. Duplicate keys, which a parsed JSON object cannot have, are read with first-binding semantics for `roles.creator`.
- A `roles` value that is undefined makes `Object.keys` throw; the model takes a list.
- The rest of `NcMetaMgr`: the Express handlers, caching of model metas, the SQL manager calls that create tables and relations, and the listener notifications.
- `xcM2MRelationCreate` catches and logs errors; a missing primary key is modelled as no plan.
- CalendarView.UpdatePatch: `extractProps` is taken to copy the present fields. A `null` field, which clears the column in the source update, is read as absent, so the model keeps the old value.
- ManyToManyRelation.PlanM2M: request arguments are taken to be strings; other JSON values are spread the same way in the source.
- Vue reactivity, the injection state and `insertRow` of the map store. `insertRow` calls the row-creation API and is outside the listed helpers.
- `packages/nc-gui/components.d.ts`, the documentation bundle and the map-view migration are not part of this model.

## Findings

| source | as written | input that shows it | evidently intended | confidence | as-written member | corrected member |
|---|---|---|---|---|---|---|
| packages/nocodb/src/plugins/backblaze/Backblaze.ts:77-79 | The upload URL uses `this.input.region` unpatched | A region setting of `s3.us-west-001` gives `https://<bucket>.s3.s3.us-west-001.backblazeb2.com/<key>` | The URL on the host the client is configured for, using `patchRegion(region)` as `init` does | not executed | Backblaze.UploadUrlRepeatsLegacyPrefix | Backblaze.PatchedUploadUrl |
| packages/nocodb/src/models/CalendarView.ts:71 | `update` reads and merges the cache entry under the `CALENDAR_VIEW_COLUMN` scope, while `get` reads `CALENDAR_VIEW` (line 32) | View `v` cached by `get`, then `update('v', { fk_cover_image_col_id: 'c' })`: `get('v')` still returns the row without the cover column | Merge into the `CALENDAR_VIEW` entry so that `get` sees the update | not executed | CalendarView.UpdateLeavesCachedViewStale | CalendarView.UpdateCoherentGetSeesUpdate |

`Backblaze.UploadUrl` is the URL as written. `Backblaze.PatchedUploadUrl` is the corrected definition that `Backblaze.Upload` uses, and `Backblaze.PatchedUploadUrlIgnoresLegacyPrefix` proves it does not depend on the legacy prefix. `CalendarView.Update` is the as-written update and `CalendarView.UpdateCoherent` the corrected one.
