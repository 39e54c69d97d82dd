/**
 * What a rollup subquery selects, given the rows of the tables it names. The
 * enclosing query binds the outer row under its qualifier; the subquery binds
 * its source rows under the reserved alias and each joined row under its table
 * path. Equality follows SQL: a missing (NULL) value equals nothing.
 *
 * The theorems relate `BuildRollup` to direct definitions of the related rows:
 * the children of the outer parent row, and the parent rows linked to the outer
 * child row through the association table.
 */
module RollupSemantics {

  import opened Wrappers
  import opened RollupQuery
  import opened RelationTypes

  type Row = map<string, int>
  /** Table rows keyed by the physical table path. */
  type Database = map<string, seq<Row>>
  /** The rows in scope, keyed by the qualifier a column reference uses. */
  type Env = map<string, Row>

  function TableRows(db: Database, path: string): seq<Row> {
    if path in db then db[path] else []
  }

  function Lookup(row: Row, column: string): Option<int> {
    if column in row then Some(row[column]) else None
  }

  /** SQL `=`: both sides present and equal. */
  predicate SqlEquals(a: Option<int>, b: Option<int>) {
    a.Some? && a == b
  }

  function RefValue(env: Env, r: ColumnRef): Option<int> {
    if r.qualifier in env then Lookup(env[r.qualifier], r.column) else None
  }

  predicate Holds(env: Env, e: Equality) {
    SqlEquals(RefValue(env, e.left), RefValue(env, e.right))
  }

  /** `FROM source AS alias`: one scope per source row, the alias shadowing any outer name. */
  function BindSource(outer: Env, alias: string, rows: seq<Row>): seq<Env> {
    if rows == [] then [] else [outer[alias := rows[0]]] + BindSource(outer, alias, rows[1..])
  }

  /** The rows of the joined table that meet the join condition in scope `env`. */
  function JoinRows(env: Env, j: Join, rows: seq<Row>): seq<Env> {
    if rows == [] then []
    else
      var e := env[j.table := rows[0]];
      (if Holds(e, j.on) then [e] else []) + JoinRows(env, j, rows[1..])
  }

  function JoinEach(envs: seq<Env>, j: Join, db: Database): seq<Env> {
    if envs == [] then [] else JoinRows(envs[0], j, TableRows(db, j.table)) + JoinEach(envs[1..], j, db)
  }

  function ApplyJoins(envs: seq<Env>, joins: seq<Join>, db: Database): seq<Env>
    decreases |joins|
  {
    if joins == [] then envs else ApplyJoins(JoinEach(envs, joins[0], db), joins[1..], db)
  }

  predicate AllHold(env: Env, wheres: seq<Equality>) {
    forall i :: 0 <= i < |wheres| ==> Holds(env, wheres[i])
  }

  function Where(envs: seq<Env>, wheres: seq<Equality>): seq<Env> {
    if envs == [] then []
    else (if AllHold(envs[0], wheres) then [envs[0]] else []) + Where(envs[1..], wheres)
  }

  function Collect(envs: seq<Env>, r: ColumnRef): seq<Option<int>> {
    if envs == [] then [] else [RefValue(envs[0], r)] + Collect(envs[1..], r)
  }

  /** The values the aggregate function is applied to, for one outer row. */
  function Evaluate(db: Database, sq: Subquery, outerName: string, outerRow: Row): seq<Option<int>> {
    var scopes := BindSource(map[outerName := outerRow], sq.sourceAlias, TableRows(db, sq.source));
    Collect(Where(ApplyJoins(scopes, sq.joins, db), sq.wheres), sq.aggregate.argument)
  }

  /** Reference: the rollup column of every child row whose foreign key matches the outer parent row. */
  function ChildValues(children: seq<Row>, q: RollupRequest, outerRow: Row): seq<Option<int>> {
    if children == [] then []
    else
      var c := children[0];
      (if SqlEquals(Lookup(outerRow, q.parentColumn), Lookup(c, q.childColumn))
       then [Lookup(c, q.rollupColumn)] else [])
      + ChildValues(children[1..], q, outerRow)
  }

  /** Reference: parent row `p` once per association row linking it to the outer child row. */
  function LinkedValues(p: Row, links: seq<Row>, q: RollupRequest, mm: AssocModel, outerRow: Row): seq<Option<int>> {
    if links == [] then []
    else
      var a := links[0];
      (if SqlEquals(Lookup(a, mm.mmParentColumn), Lookup(p, q.parentColumn))
          && SqlEquals(Lookup(a, mm.mmChildColumn), Lookup(outerRow, q.childColumn))
       then [Lookup(p, q.rollupColumn)] else [])
      + LinkedValues(p, links[1..], q, mm, outerRow)
  }

  function ParentValues(parents: seq<Row>, links: seq<Row>, q: RollupRequest, mm: AssocModel, outerRow: Row): seq<Option<int>> {
    if parents == [] then []
    else LinkedValues(parents[0], links, q, mm, outerRow) + ParentValues(parents[1..], links, q, mm, outerRow)
  }

  lemma {:induction false} WhereAppend(a: seq<Env>, b: seq<Env>, wheres: seq<Equality>)
    ensures Where(a + b, wheres) == Where(a, wheres) + Where(b, wheres)
  {
    if a == [] {
      assert a + b == b;
    } else {
      assert (a + b)[0] == a[0];
      assert (a + b)[1..] == a[1..] + b;
      WhereAppend(a[1..], b, wheres);
    }
  }

  lemma {:induction false} CollectAppend(a: seq<Env>, b: seq<Env>, r: ColumnRef)
    ensures Collect(a + b, r) == Collect(a, r) + Collect(b, r)
  {
    if a == [] {
      assert a + b == b;
    } else {
      assert (a + b)[0] == a[0];
      assert (a + b)[1..] == a[1..] + b;
      CollectAppend(a[1..], b, r);
    }
  }

  lemma {:induction false} DirectRows(children: seq<Row>, q: RollupRequest, outerName: string, outerRow: Row)
    requires outerName != RollupAlias
    ensures Collect(Where(BindSource(map[outerName := outerRow], RollupAlias, children),
                          [Equality(ColumnRef(outerName, q.parentColumn), ColumnRef(RollupAlias, q.childColumn))]),
                    ColumnRef(RollupAlias, q.rollupColumn))
            == ChildValues(children, q, outerRow)
  {
    var outer := map[outerName := outerRow];
    var w := [Equality(ColumnRef(outerName, q.parentColumn), ColumnRef(RollupAlias, q.childColumn))];
    var arg := ColumnRef(RollupAlias, q.rollupColumn);
    if children != [] {
      var e := outer[RollupAlias := children[0]];
      var rest := BindSource(outer, RollupAlias, children[1..]);
      assert BindSource(outer, RollupAlias, children) == [e] + rest;
      WhereAppend([e], rest, w);
      assert Where([e], w) == (if AllHold(e, w) then [e] else []);
      assert AllHold(e, w) <==> Holds(e, w[0]);
      CollectAppend(Where([e], w), Where(rest, w), arg);
      DirectRows(children[1..], q, outerName, outerRow);
    }
  }

  /** A has-many or one-to-one rollup aggregates exactly the children of the outer parent row. */
  lemma DirectRollupSelectsChildren(db: Database, q: RollupRequest, builderMethods: set<string>, outerRow: Row)
    requires q.relationType in {HasManyType, OneToOneType}
    requires BuildRollup(q, builderMethods).Success? && BuildRollup(q, builderMethods).value.Some?
    requires OuterName(q.alias, q.parentPath) != RollupAlias
    ensures Evaluate(db, BuildRollup(q, builderMethods).value.value, OuterName(q.alias, q.parentPath), outerRow)
            == ChildValues(TableRows(db, q.childPath), q, outerRow)
  {
    DirectRows(TableRows(db, q.childPath), q, OuterName(q.alias, q.parentPath), outerRow);
  }

  lemma {:induction false} AssocRows(env: Env, p: Row, links: seq<Row>, q: RollupRequest, mm: AssocModel,
                                     outerName: string, outerRow: Row)
    requires env == map[outerName := outerRow][RollupAlias := p]
    requires outerName != RollupAlias && mm.tnPath != RollupAlias && mm.tnPath != outerName
    ensures Collect(Where(JoinRows(env, InnerJoin(mm.tnPath, Equality(ColumnRef(mm.tnPath, mm.mmParentColumn),
                                                                       ColumnRef(RollupAlias, q.parentColumn))), links),
                          [Equality(ColumnRef(mm.tnPath, mm.mmChildColumn), ColumnRef(outerName, q.childColumn))]),
                    ColumnRef(RollupAlias, q.rollupColumn))
            == LinkedValues(p, links, q, mm, outerRow)
  {
    var j := InnerJoin(mm.tnPath, Equality(ColumnRef(mm.tnPath, mm.mmParentColumn), ColumnRef(RollupAlias, q.parentColumn)));
    var w := [Equality(ColumnRef(mm.tnPath, mm.mmChildColumn), ColumnRef(outerName, q.childColumn))];
    var arg := ColumnRef(RollupAlias, q.rollupColumn);
    if links != [] {
      var e := env[mm.tnPath := links[0]];
      var head := if Holds(e, j.on) then [e] else [];
      var rest := JoinRows(env, j, links[1..]);
      assert JoinRows(env, j, links) == head + rest;
      WhereAppend(head, rest, w);
      CollectAppend(Where(head, w), Where(rest, w), arg);
      assert AllHold(e, w) <==> Holds(e, w[0]);
      AssocRows(env, p, links[1..], q, mm, outerName, outerRow);
    }
  }

  lemma {:induction false} ParentRows(parents: seq<Row>, db: Database, q: RollupRequest, mm: AssocModel,
                                      outerName: string, outerRow: Row)
    requires outerName != RollupAlias && mm.tnPath != RollupAlias && mm.tnPath != outerName
    ensures Collect(Where(JoinEach(BindSource(map[outerName := outerRow], RollupAlias, parents),
                                   InnerJoin(mm.tnPath, Equality(ColumnRef(mm.tnPath, mm.mmParentColumn),
                                                                 ColumnRef(RollupAlias, q.parentColumn))), db),
                          [Equality(ColumnRef(mm.tnPath, mm.mmChildColumn), ColumnRef(outerName, q.childColumn))]),
                    ColumnRef(RollupAlias, q.rollupColumn))
            == ParentValues(parents, TableRows(db, mm.tnPath), q, mm, outerRow)
  {
    var outer := map[outerName := outerRow];
    var j := InnerJoin(mm.tnPath, Equality(ColumnRef(mm.tnPath, mm.mmParentColumn), ColumnRef(RollupAlias, q.parentColumn)));
    var w := [Equality(ColumnRef(mm.tnPath, mm.mmChildColumn), ColumnRef(outerName, q.childColumn))];
    var arg := ColumnRef(RollupAlias, q.rollupColumn);
    if parents != [] {
      var e := outer[RollupAlias := parents[0]];
      var rest := BindSource(outer, RollupAlias, parents[1..]);
      assert BindSource(outer, RollupAlias, parents) == [e] + rest;
      assert ([e] + rest)[0] == e && ([e] + rest)[1..] == rest;
      var first := JoinRows(e, j, TableRows(db, mm.tnPath));
      assert JoinEach([e] + rest, j, db) == first + JoinEach(rest, j, db);
      WhereAppend(first, JoinEach(rest, j, db), w);
      CollectAppend(Where(first, w), Where(JoinEach(rest, j, db), w), arg);
      AssocRows(e, parents[0], TableRows(db, mm.tnPath), q, mm, outerName, outerRow);
      ParentRows(parents[1..], db, q, mm, outerName, outerRow);
    }
  }

  /**
   * A many-to-many rollup aggregates each parent row once per association row
   * that links it to the outer child row, provided the outer qualifier, the
   * reserved alias and the association table path are pairwise distinct.
   */
  lemma AssocRollupSelectsLinkedParents(db: Database, q: RollupRequest, builderMethods: set<string>, outerRow: Row)
    requires q.relationType == ManyToManyType
    requires BuildRollup(q, builderMethods).Success? && BuildRollup(q, builderMethods).value.Some?
    requires OuterName(q.alias, q.childPath) != RollupAlias
    requires q.mmModel.Some? && q.mmModel.value.tnPath != RollupAlias
    requires q.mmModel.value.tnPath != OuterName(q.alias, q.childPath)
    ensures Evaluate(db, BuildRollup(q, builderMethods).value.value, OuterName(q.alias, q.childPath), outerRow)
            == ParentValues(TableRows(db, q.parentPath), TableRows(db, q.mmModel.value.tnPath), q, q.mmModel.value, outerRow)
  {
    var mm := q.mmModel.value;
    var outerName := OuterName(q.alias, q.childPath);
    var sq := BuildRollup(q, builderMethods).value.value;
    var scopes := BindSource(map[outerName := outerRow], RollupAlias, TableRows(db, q.parentPath));
    assert ApplyJoins(scopes, sq.joins, db) == ApplyJoins(JoinEach(scopes, sq.joins[0], db), [], db);
    ParentRows(TableRows(db, q.parentPath), db, q, mm, outerName, outerRow);
  }
}
