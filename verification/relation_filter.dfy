/**
 * The role filter at the end of NcMetaMgr's `tableXcModelGet`: unless the user
 * is a creator, a table meta's belongsTo and hasMany relations are kept only
 * when some active role of the user has not disabled them. Disabled settings
 * are rows keyed by `tn||type||rtn||cn||rcn||role`; the last row for a key wins.
 */
module RelationFilter {

  import opened Wrappers
  import opened RelationTypes

  /** One relation of the parsed table meta. */
  datatype Relation = Relation(tn: string, rtn: string, cn: string, rcn: string)

  /** The parsed table meta; the relation lists may be absent, other keys are carried along. */
  datatype TableMeta = TableMeta(belongsTo: Option<seq<Relation>>, hasMany: Option<seq<Relation>>, otherKeys: map<string, string>)

  /** A row of `nc_disabled_models_for_role`. */
  datatype DisabledRow = DisabledRow(tn: string, relationType: string, rtn: string, cn: string, rcn: string,
                                     role: string, disabled: bool)

  /** The five relation fields joined with a double bar between each pair. */
  function JoinKey(tn: string, relationType: string, rtn: string, cn: string, rcn: string): string {
    tn + "||" + relationType + "||" + rtn + "||" + cn + "||" + rcn
  }

  /** The key of a disabled row: the relation key followed by `||role`. */
  function RowKey(d: DisabledRow): string {
    JoinKey(d.tn, d.relationType, d.rtn, d.cn, d.rcn) + "||" + d.role
  }

  /** The key of a relation in the list of the given type, without the role. */
  function RelationKey(r: Relation, relationType: string): string {
    JoinKey(r.tn, relationType, r.rtn, r.cn, r.rcn)
  }

  /** The rows the meta query selects: has-many rows pointing at the table, belongs-to rows of the table. */
  predicate Selected(d: DisabledRow, tn: string) {
    (d.relationType == HasManyType && d.rtn == tn) || (d.relationType == BelongsToType && d.tn == tn)
  }

  function SelectRows(rows: seq<DisabledRow>, tn: string): (r: seq<DisabledRow>)
    ensures forall d :: d in r <==> d in rows && Selected(d, tn)
  {
    if rows == [] then [] else (if Selected(rows[0], tn) then [rows[0]] else []) + SelectRows(rows[1..], tn)
  }

  /** The `reduce` into `groupedDisabledData`: each row sets its key, later rows overwrite earlier ones. */
  function GroupDisabled(rows: seq<DisabledRow>): (g: map<string, bool>)
    ensures forall i :: 0 <= i < |rows| ==> RowKey(rows[i]) in g
    ensures rows != [] ==> g[RowKey(rows[|rows| - 1])] == rows[|rows| - 1].disabled
  {
    if rows == [] then map[]
    else
      var prev := GroupDisabled(rows[..|rows| - 1]);
      assert forall i :: 0 <= i < |rows| - 1 ==> rows[..|rows| - 1][i] == rows[i];
      prev[RowKey(rows[|rows| - 1]) := rows[|rows| - 1].disabled]
  }

  /** Row `i` is the last row with key `k`. */
  predicate LastWithKey(rows: seq<DisabledRow>, k: string, i: int) {
    0 <= i < |rows| && RowKey(rows[i]) == k && forall j :: i < j < |rows| ==> RowKey(rows[j]) != k
  }

  /** A key is grouped exactly when some row has it, and it holds the `disabled` flag of the last such row. */
  lemma {:induction false} GroupDisabledLastWins(rows: seq<DisabledRow>, k: string)
    ensures k in GroupDisabled(rows) <==> exists i :: 0 <= i < |rows| && RowKey(rows[i]) == k
    ensures k in GroupDisabled(rows) ==>
              exists i :: LastWithKey(rows, k, i) && GroupDisabled(rows)[k] == rows[i].disabled
  {
    if rows != [] {
      var n := |rows| - 1;
      var prev := rows[..n];
      assert forall i :: 0 <= i < n ==> prev[i] == rows[i];
      GroupDisabledLastWins(prev, k);
      if RowKey(rows[n]) == k {
        assert LastWithKey(rows, k, n);
      } else if k in GroupDisabled(rows) {
        var i :| LastWithKey(prev, k, i) && GroupDisabled(prev)[k] == prev[i].disabled;
        assert LastWithKey(rows, k, i);
      }
    }
  }

  /** A relation key for a role is enabled unless its grouped flag is true; a key without a row is not disabled. */
  predicate Enabled(grouped: map<string, bool>, key: string) {
    key !in grouped || !grouped[key]
  }

  /** The filter callback: some active role has the relation enabled. */
  predicate Visible(r: Relation, relationType: string, roles: seq<(string, bool)>, grouped: map<string, bool>) {
    exists i :: 0 <= i < |roles| && roles[i].1 && Enabled(grouped, RelationKey(r, relationType) + "||" + roles[i].0)
  }

  function FilterRelations(rels: seq<Relation>, relationType: string, roles: seq<(string, bool)>,
                           grouped: map<string, bool>): (r: seq<Relation>)
    ensures |r| <= |rels|
    ensures forall x :: x in r <==> x in rels && Visible(x, relationType, roles, grouped)
  {
    if rels == [] then []
    else (if Visible(rels[0], relationType, roles, grouped) then [rels[0]] else [])
         + FilterRelations(rels[1..], relationType, roles, grouped)
  }

  /** The filter keeps the relative order of what it keeps: it distributes over concatenation. */
  lemma {:induction false} FilterRelationsAppend(a: seq<Relation>, b: seq<Relation>, relationType: string,
                                                 roles: seq<(string, bool)>, grouped: map<string, bool>)
    ensures FilterRelations(a + b, relationType, roles, grouped)
            == FilterRelations(a, relationType, roles, grouped) + FilterRelations(b, relationType, roles, grouped)
  {
    if a == [] {
      assert a + b == b;
    } else {
      assert (a + b)[0] == a[0];
      assert (a + b)[1..] == a[1..] + b;
      FilterRelationsAppend(a[1..], b, relationType, roles, grouped);
    }
  }

  /** The user's `creator` role is set: the first binding of that key is truthy. */
  predicate IsCreator(roles: seq<(string, bool)>) {
    |roles| > 0 && (if roles[0].0 == "creator" then roles[0].1 else IsCreator(roles[1..]))
  }

  function FilterList(list: Option<seq<Relation>>, relationType: string, roles: seq<(string, bool)>,
                      grouped: map<string, bool>): Option<seq<Relation>> {
    match list
    case None => None
    case Some(rels) => Some(FilterRelations(rels, relationType, roles, grouped))
  }

  /**
   * The meta `tableXcModelGet` returns for table `tn` to a user with `roles`,
   * given the stored disabled-relation rows.
   */
  function ModelMetaForRoles(meta: TableMeta, tn: string, roles: seq<(string, bool)>,
                             disabledRows: seq<DisabledRow>): (r: TableMeta)
    ensures IsCreator(roles) ==> r == meta
    ensures r.otherKeys == meta.otherKeys
    ensures r.belongsTo.Some? <==> meta.belongsTo.Some?
    ensures r.hasMany.Some? <==> meta.hasMany.Some?
    // each present list is filtered in place: entries are only removed, and the kept ones keep their order
    ensures !IsCreator(roles) && meta.belongsTo.Some? ==>
              r.belongsTo == Some(FilterRelations(meta.belongsTo.value, BelongsToType, roles,
                                                  GroupDisabled(SelectRows(disabledRows, tn))))
    ensures !IsCreator(roles) && meta.hasMany.Some? ==>
              r.hasMany == Some(FilterRelations(meta.hasMany.value, HasManyType, roles,
                                                GroupDisabled(SelectRows(disabledRows, tn))))
    ensures !IsCreator(roles) && meta.belongsTo.Some? ==>
              var g := GroupDisabled(SelectRows(disabledRows, tn));
              forall x :: x in r.belongsTo.value <==> x in meta.belongsTo.value && Visible(x, BelongsToType, roles, g)
    ensures !IsCreator(roles) && meta.hasMany.Some? ==>
              var g := GroupDisabled(SelectRows(disabledRows, tn));
              forall x :: x in r.hasMany.value <==> x in meta.hasMany.value && Visible(x, HasManyType, roles, g)
  {
    if IsCreator(roles) then meta
    else
      var grouped := GroupDisabled(SelectRows(disabledRows, tn));
      meta.(belongsTo := FilterList(meta.belongsTo, BelongsToType, roles, grouped),
            hasMany := FilterList(meta.hasMany, HasManyType, roles, grouped))
  }

  /** Without any disabled rows, a user with at least one active role sees every relation. */
  lemma {:induction false} NothingDisabledKeepsAll(rels: seq<Relation>, relationType: string, roles: seq<(string, bool)>)
    requires exists i :: 0 <= i < |roles| && roles[i].1
    ensures FilterRelations(rels, relationType, roles, map[]) == rels
  {
    if rels != [] {
      var i :| 0 <= i < |roles| && roles[i].1;
      assert Visible(rels[0], relationType, roles, map[]);
      NothingDisabledKeepsAll(rels[1..], relationType, roles);
    }
  }
}
