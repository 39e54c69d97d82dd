/**
 * The rollup subquery builder of genRollupSelectv2: from a relation column's
 * pre-resolved metadata and an aggregate name it builds one of three fixed
 * subquery shapes (has-many, one-to-one, many-to-many through an association
 * table). The knex builder is replaced by the abstract `Subquery` value the
 * chained calls describe.
 */
module RollupQuery {

  import opened Wrappers
  import opened RelationTypes

  /** The fixed alias under which the related table is read (`refTableAlias`). */
  const RollupAlias: string := "__nc_rollup"

  /** The association table of a many-to-many link, with its two foreign-key columns. */
  datatype AssocModel = AssocModel(tnPath: string, mmChildColumn: string, mmParentColumn: string)

  /**
   * Everything the builder reads, already looked up: table paths are what
   * `getTnPath` returns for the child, parent and association models, columns
   * are `column_name`s. The relation type is the link column's type code; every
   * code but has-many, one-to-one and many-to-many (belongs-to included) takes
   * the default branch.
   */
  datatype RollupRequest = RollupRequest(
    relationType: string,
    rollupFunction: string,
    rollupColumn: string,
    childPath: string,
    childColumn: string,
    parentPath: string,
    parentColumn: string,
    mmModel: Option<AssocModel>,
    alias: Option<string>)

  /** A column reference: the column name qualified by a table path or alias. */
  datatype ColumnRef = ColumnRef(qualifier: string, column: string)

  /** An equality between two column references (a where clause or a join condition). */
  datatype Equality = Equality(left: ColumnRef, right: ColumnRef)

  /** An inner join of a table on one equality. */
  datatype Join = InnerJoin(table: string, on: Equality)

  /** The aggregate builder method applied to one column reference. */
  datatype Aggregate = Aggregate(fn: string, argument: ColumnRef)

  /** The query the chained builder calls describe: a source table read under an alias, its aggregate, joins and where clauses. */
  datatype Subquery = Subquery(
    source: string,
    sourceAlias: string,
    aggregate: Aggregate,
    joins: seq<Join>,
    wheres: seq<Equality>)

  datatype RollupError =
    /** The default branch: an error naming the unsupported relation type. */
    | UnsupportedRelationType(message: string)
    /** The association model's id is read while the model is missing. */
    | MissingAssociationModel

  /** The qualifier of the outer row: the alias when it is non-empty, else the table path. */
  function OuterName(alias: Option<string>, fallback: string): (r: string)
    ensures alias.Some? && alias.value != "" ==> r == alias.value
    ensures alias.None? || alias.value == "" ==> r == fallback
  {
    if alias.Some? && alias.value != "" then alias.value else fallback
  }

  /** The where clause that ties a has-many or one-to-one subquery to the outer row. */
  function DirectCorrelation(q: RollupRequest): Equality {
    Equality(ColumnRef(OuterName(q.alias, q.parentPath), q.parentColumn),
             ColumnRef(RollupAlias, q.childColumn))
  }

  /**
   * The shape shared by the has-many and one-to-one branches. The aggregate is
   * an optional call: when the builder has no method of that name the whole
   * chain after it is skipped and the branch answers with no builder.
   */
  function DirectRollup(q: RollupRequest, builderMethods: set<string>): (r: Option<Subquery>)
    ensures r.Some? <==> q.rollupFunction in builderMethods
    // the child table is read under the alias; the outer parent column is matched against the child's foreign key
    ensures r.Some? ==>
              && r.value.source == q.childPath
              && r.value.sourceAlias == RollupAlias
              && r.value.aggregate == Aggregate(q.rollupFunction, ColumnRef(RollupAlias, q.rollupColumn))
              && r.value.joins == []
              && r.value.wheres == [Equality(ColumnRef(OuterName(q.alias, q.parentPath), q.parentColumn),
                                             ColumnRef(RollupAlias, q.childColumn))]
  {
    if q.rollupFunction !in builderMethods then None
    else Some(Subquery(q.childPath, RollupAlias,
                       Aggregate(q.rollupFunction, ColumnRef(RollupAlias, q.rollupColumn)),
                       [], [DirectCorrelation(q)]))
  }

  /**
   * The many-to-many branch: read the parent side and reach the outer child row
   * through the association table. The association model is read before the
   * optional aggregate call, whose absence again skips the rest of the chain.
   */
  function AssocRollup(q: RollupRequest, builderMethods: set<string>): (r: Result<Option<Subquery>, RollupError>)
    // a missing association model is detected before the aggregate is looked up
    ensures q.mmModel.None? ==> r == Failure(MissingAssociationModel)
    ensures q.mmModel.Some? ==> r.Success? && (r.value.Some? <==> q.rollupFunction in builderMethods)
    // parent rows under the alias, joined to their association rows, which must point at the outer child row
    ensures r.Success? && r.value.Some? ==>
              var mm := q.mmModel.value;
              var sq := r.value.value;
              && sq.source == q.parentPath
              && sq.sourceAlias == RollupAlias
              && sq.aggregate == Aggregate(q.rollupFunction, ColumnRef(RollupAlias, q.rollupColumn))
              && sq.joins == [InnerJoin(mm.tnPath, Equality(ColumnRef(mm.tnPath, mm.mmParentColumn),
                                                           ColumnRef(RollupAlias, q.parentColumn)))]
              && sq.wheres == [Equality(ColumnRef(mm.tnPath, mm.mmChildColumn),
                                        ColumnRef(OuterName(q.alias, q.childPath), q.childColumn))]
  {
    match q.mmModel
    case None => Failure(MissingAssociationModel)
    case Some(mm) =>
      if q.rollupFunction !in builderMethods then Success(None)
      else Success(Some(Subquery(q.parentPath, RollupAlias,
                            Aggregate(q.rollupFunction, ColumnRef(RollupAlias, q.rollupColumn)),
                            [InnerJoin(mm.tnPath, Equality(ColumnRef(mm.tnPath, mm.mmParentColumn),
                                                           ColumnRef(RollupAlias, q.parentColumn)))],
                            [Equality(ColumnRef(mm.tnPath, mm.mmChildColumn),
                                      ColumnRef(OuterName(q.alias, q.childPath), q.childColumn))])))
  }

  /**
   * The default-exported builder. `builderMethods` are the names the knex query
   * builder answers to; for any other `rollup_function` the call is skipped and
   * the builder is `undefined` (`Success(None)`).
   */
  function BuildRollup(q: RollupRequest, builderMethods: set<string>): (r: Result<Option<Subquery>, RollupError>)
    // every produced query reads the related table under the fixed alias and aggregates its rollup column
    ensures r.Success? && r.value.Some? ==>
              && r.value.value.sourceAlias == RollupAlias
              && r.value.value.aggregate == Aggregate(q.rollupFunction, ColumnRef(RollupAlias, q.rollupColumn))
              && |r.value.value.wheres| == 1
    // the supported types never fail, except many-to-many without its association model;
    // a builder is produced exactly when the aggregate is a builder method
    ensures q.relationType in {HasManyType, OneToOneType} ==>
              r.Success? && (r.value.Some? <==> q.rollupFunction in builderMethods)
    ensures q.relationType == ManyToManyType && q.mmModel.Some? ==>
              r.Success? && (r.value.Some? <==> q.rollupFunction in builderMethods)
    ensures q.relationType == ManyToManyType && q.mmModel.None? ==> r == Failure(MissingAssociationModel)
    // has-many and one-to-one: child table, no join, outer parent column = aliased child column
    ensures r.Success? && r.value.Some? && q.relationType in {HasManyType, OneToOneType} ==>
              && r.value.value.source == q.childPath
              && r.value.value.joins == []
              && r.value.value.wheres[0].left == ColumnRef(OuterName(q.alias, q.parentPath), q.parentColumn)
              && r.value.value.wheres[0].right == ColumnRef(RollupAlias, q.childColumn)
    // many-to-many: parent table, one inner join on the association table, association child column = outer child column
    ensures r.Success? && r.value.Some? && q.relationType == ManyToManyType ==>
              var sq := r.value.value;
              && sq.source == q.parentPath
              && |sq.joins| == 1
              && sq.joins[0].table == q.mmModel.value.tnPath
              && sq.joins[0].on.left == ColumnRef(q.mmModel.value.tnPath, q.mmModel.value.mmParentColumn)
              && sq.joins[0].on.right == ColumnRef(RollupAlias, q.parentColumn)
              && sq.wheres[0].left == ColumnRef(q.mmModel.value.tnPath, q.mmModel.value.mmChildColumn)
              && sq.wheres[0].right == ColumnRef(OuterName(q.alias, q.childPath), q.childColumn)
    // every other type throws and produces no query
    ensures q.relationType !in {HasManyType, OneToOneType, ManyToManyType} ==>
              r == Failure(UnsupportedRelationType("Unsupported relation type '" + q.relationType + "'"))
  {
    if q.relationType == HasManyType || q.relationType == OneToOneType then Success(DirectRollup(q, builderMethods))
    else if q.relationType == ManyToManyType then AssocRollup(q, builderMethods)
    else Failure(UnsupportedRelationType("Unsupported relation type '" + q.relationType + "'"))
  }

  /** One-to-one builds exactly what has-many builds from the same metadata. */
  lemma OneToOneMatchesHasMany(q: RollupRequest, builderMethods: set<string>)
    ensures BuildRollup(q.(relationType := OneToOneType), builderMethods) == BuildRollup(q.(relationType := HasManyType), builderMethods)
  {
  }

  /**
   * The outer alias stands in for the parent table in the direct shapes but for
   * the child table in the many-to-many shape; the other table's path never
   * appears in the correlation.
   */
  lemma OuterAliasReplacesCorrelatedTable(q: RollupRequest, builderMethods: set<string>)
    requires q.alias.Some? && q.alias.value != ""
    requires BuildRollup(q, builderMethods).Success? && BuildRollup(q, builderMethods).value.Some?
    ensures q.relationType in {HasManyType, OneToOneType} ==>
              BuildRollup(q, builderMethods).value.value.wheres[0].left.qualifier == q.alias.value
    ensures q.relationType == ManyToManyType ==>
              BuildRollup(q, builderMethods).value.value.wheres[0].right.qualifier == q.alias.value
  {
  }

  /** Without an outer alias, the correlation names the parent (direct) or child (many-to-many) table path. */
  lemma NoAliasUsesTablePath(q: RollupRequest, builderMethods: set<string>)
    requires q.alias.None? || q.alias.value == ""
    requires BuildRollup(q, builderMethods).Success? && BuildRollup(q, builderMethods).value.Some?
    ensures q.relationType in {HasManyType, OneToOneType} ==>
              BuildRollup(q, builderMethods).value.value.wheres[0].left.qualifier == q.parentPath
    ensures q.relationType == ManyToManyType ==>
              BuildRollup(q, builderMethods).value.value.wheres[0].right.qualifier == q.childPath
  {
  }
}
