/**
 * The construction step of NcMetaMgr's `xcM2MRelationCreate`: from the parsed
 * metas of the parent and child tables it builds the association table (two
 * primary-key columns typed like the two tables' primary keys) and the two
 * relations that tie it to them. Creating the table and relations is a call
 * into the SQL manager and is not modelled; the random suffix of the table
 * name is a parameter.
 */
module ManyToManyRelation {

  import opened Wrappers
  import opened JsStrings

  /** A column of a parsed table meta (only what the construction reads). */
  datatype ColumnMeta = ColumnMeta(cn: string, pk: bool, dt: string, dtxp: string, dtxs: string, un: bool)

  datatype TableMeta = TableMeta(tn: string, columns: seq<ColumnMeta>)

  /** A column definition handed to `tableCreate`; `cdf` is always `null`, shown as `None`. */
  datatype AssocColumn = AssocColumn(cn: string, displayName: string, rqd: bool, pk: bool, ai: bool,
                                     cdf: Option<string>, dt: string, dtxp: string, dtxs: string, un: bool,
                                     altered: int)

  /**
   * The arguments of one `relationCreate` / `xcVirtualRelationCreate` call:
   * the five fields the construction sets, and every other request argument
   * spread in unchanged.
   */
  datatype RelationArgs = RelationArgs(childTable: string, childColumn: string, parentTable: string,
                                       parentColumn: string, relationType: string, rest: map<string, string>)

  /** The request arguments the relation arguments set themselves, overriding the request's values. */
  const RelationFields: set<string> := {"childTable", "childColumn", "parentTable", "parentColumn", "type"}

  /** The request arguments a relation call inherits: all but the ones it sets. */
  function InheritedArgs(args: map<string, string>): (r: map<string, string>)
    ensures r.Keys == args.Keys - RelationFields
    ensures forall k :: k in r ==> r[k] == args[k]
  {
    map k | k in args && k !in RelationFields :: args[k]
  }

  /** The request asks for real (foreign-key) relations: its `type` argument is `real`. */
  predicate WantsReal(args: map<string, string>) {
    "type" in args && args["type"] == "real"
  }

  datatype Creation = RealRelations | VirtualRelations

  datatype M2MPlan = M2MPlan(assocTable: string, columns: seq<AssocColumn>, rel1: RelationArgs, rel2: RelationArgs,
                             creation: Creation)

  /** The first primary-key column of a table, if it has one. */
  function FirstPk(cols: seq<ColumnMeta>): (r: Option<ColumnMeta>)
    ensures r.Some? ==> r.value in cols && r.value.pk
    ensures r.Some? ==> exists k :: (0 <= k < |cols| && cols[k] == r.value && cols[k].pk &&
                                     forall j :: 0 <= j < k ==> !cols[j].pk)
    ensures r.None? <==> forall i :: 0 <= i < |cols| ==> !cols[i].pk
  {
    if cols == [] then None
    else if cols[0].pk then
      // index 0 witnesses the existential of the first-key clause
      assert 0 < |cols| && cols[0] == Some(cols[0]).value && cols[0].pk;
      Some(cols[0])
    else
      var r := FirstPk(cols[1..]);
      if r.Some? then
        var k :| 0 <= k < |cols[1..]| && cols[1..][k] == r.value && cols[1..][k].pk &&
                 forall j :: 0 <= j < k ==> !cols[1..][j].pk;
        assert cols[k + 1] == r.value;
        r
      else r
  }

  function IdColumnName(tn: string): string {
    tn + "_id"
  }

  /** The association column referencing table `tn` through its primary key `pk`. */
  function AssocColumnFor(tn: string, pk: ColumnMeta): (c: AssocColumn)
    // a required, non-increment primary key named and displayed as `<tn>_id`, new and without a default
    ensures c.cn == tn + "_id" && c.displayName == c.cn
    ensures c.pk && c.rqd && !c.ai && c.cdf.None? && c.altered == 1
    // typed exactly like the referenced primary key
    ensures c.dt == pk.dt && c.dtxp == pk.dtxp && c.dtxs == pk.dtxs && c.un == pk.un
  {
    AssocColumn(IdColumnName(tn), IdColumnName(tn), true, true, false, None, pk.dt, pk.dtxp, pk.dtxs, pk.un, 1)
  }

  /**
   * The association table's name: the project prefix (empty when unset), the
   * `_nc_m2m_` marker, the parent and child table names, and a random number
   * below 1000, separated by underscores.
   */
  function AssocTableName(prefix: Option<string>, parentTn: string, childTn: string, draw: nat): (r: string)
    ensures exists n :: 0 <= n < 1000 &&
              r == prefix.GetOr("") + "_nc_m2m_" + parentTn + "_" + childTn + "_" + DecimalString(n)
    ensures StartsWith(r, prefix.GetOr("") + "_nc_m2m_")
  {
    var n := draw % 1000;
    var r := prefix.GetOr("") + "_nc_m2m_" + parentTn + "_" + childTn + "_" + DecimalString(n);
    assert r == (prefix.GetOr("") + "_nc_m2m_") + (parentTn + "_" + childTn + "_" + DecimalString(n));
    r
  }

  /**
   * The association table and relations `xcM2MRelationCreate` asks for;
   * `None` when either table has no primary key (reading the missing key's
   * `dt` throws and the error is caught and logged).
   */
  function PlanM2M(parent: TableMeta, child: TableMeta, prefix: Option<string>, draw: nat, args: map<string, string>)
    : (r: Option<M2MPlan>)
    ensures r.None? <==> FirstPk(parent.columns).None? || FirstPk(child.columns).None?
    ensures r.Some? ==>
              var p := r.value;
              var parentPk := FirstPk(parent.columns).value;
              var childPk := FirstPk(child.columns).value;
              // the child's column first, then the parent's, each built from that table's first primary key
              && p.columns == [AssocColumnFor(child.tn, childPk), AssocColumnFor(parent.tn, parentPk)]
              && p.columns[0].cn == child.tn + "_id" && p.columns[1].cn == parent.tn + "_id"
              && p.assocTable == AssocTableName(prefix, parent.tn, child.tn, draw)
              && StartsWith(p.assocTable, prefix.GetOr("") + "_nc_m2m_")
              && (p.creation == RealRelations <==> WantsReal(args))
    ensures r.Some? ==>
              var p := r.value;
              && p.rel1 == RelationArgs(p.assocTable, parent.tn + "_id", parent.tn, FirstPk(parent.columns).value.cn, "real", p.rel1.rest)
              && p.rel2 == RelationArgs(p.assocTable, child.tn + "_id", child.tn, FirstPk(child.columns).value.cn, "real", p.rel2.rest)
    // every other request argument reaches both relation calls unchanged
    ensures r.Some? ==>
              && r.value.rel1.rest.Keys == args.Keys - RelationFields && r.value.rel2.rest == r.value.rel1.rest
              && (forall k :: k in r.value.rel1.rest ==> r.value.rel1.rest[k] == args[k])
  {
    var parentPk := FirstPk(parent.columns);
    var childPk := FirstPk(child.columns);
    if childPk.None? || parentPk.None? then None
    else
      var aTn := AssocTableName(prefix, parent.tn, child.tn, draw);
      Some(M2MPlan(
        aTn,
        [AssocColumnFor(child.tn, childPk.value), AssocColumnFor(parent.tn, parentPk.value)],
        RelationArgs(aTn, IdColumnName(parent.tn), parent.tn, parentPk.value.cn, "real", InheritedArgs(args)),
        RelationArgs(aTn, IdColumnName(child.tn), child.tn, childPk.value.cn, "real", InheritedArgs(args)),
        if WantsReal(args) then RealRelations else VirtualRelations))
  }

  /** The association column a relation's child column names. */
  predicate ColumnOf(p: M2MPlan, rel: RelationArgs, c: AssocColumn) {
    c in p.columns && c.cn == rel.childColumn
  }

  /**
   * Both relations start at the association table, from one of its columns
   * whose type is that of the primary key the relation points to.
   */
  lemma RelationsMatchAssocColumns(parent: TableMeta, child: TableMeta, prefix: Option<string>, draw: nat, args: map<string, string>)
    requires PlanM2M(parent, child, prefix, draw, args).Some?
    ensures var p := PlanM2M(parent, child, prefix, draw, args).value;
            && p.rel1.childTable == p.assocTable && p.rel2.childTable == p.assocTable
            && (exists c :: ColumnOf(p, p.rel1, c) && c.dt == FirstPk(parent.columns).value.dt)
            && (exists c :: ColumnOf(p, p.rel2, c) && c.dt == FirstPk(child.columns).value.dt)
            && FirstPk(parent.columns).value in parent.columns && p.rel1.parentColumn == FirstPk(parent.columns).value.cn
            && FirstPk(child.columns).value in child.columns && p.rel2.parentColumn == FirstPk(child.columns).value.cn
  {
    var p := PlanM2M(parent, child, prefix, draw, args).value;
    assert ColumnOf(p, p.rel1, p.columns[1]);
    assert ColumnOf(p, p.rel2, p.columns[0]);
  }

  /** Relating a table to itself gives the association table two columns of the same name. */
  lemma SelfRelationRepeatsColumnName(t: TableMeta, prefix: Option<string>, draw: nat, args: map<string, string>)
    requires PlanM2M(t, t, prefix, draw, args).Some?
    ensures var p := PlanM2M(t, t, prefix, draw, args).value;
            p.columns[0].cn == p.columns[1].cn
  {
  }
}
