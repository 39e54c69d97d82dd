/**
 * Access-control helpers of NcMetaMgr: the validation `xcAclSave` performs
 * before storing a table ACL, and the fold `xcAclAggregatedGet` runs over every
 * stored ACL to report, per role, which of the four operations it is granted
 * anywhere. ACL objects come from `JSON.parse`; where their iteration order
 * matters they are association lists in key order.
 */
module Acl {

  import opened Wrappers

  datatype Op = Create | Read | Update | Delete

  function OpName(op: Op): string {
    match op
    case Create => "create"
    case Read => "read"
    case Update => "update"
    case Delete => "delete"
  }

  /**
   * The value stored for one operation of one role: absent (`undefined`), a
   * boolean, or an object whose `columns` maps column names to booleans.
   */
  datatype OpAcl = Missing | Flag(allowed: bool) | Rule(columns: Option<map<string, bool>>)

  /** A role's ACL: one boolean for all operations, or an object keyed by operation name. */
  datatype RoleAcl = AllOps(allowed: bool) | PerOp(ops: seq<(string, OpAcl)>)

  /** JavaScript truthiness of a stored operation value. */
  predicate Truthy(v: OpAcl) {
    v == Flag(true) || v.Rule?
  }

  /** The value stored for an operation name: the first binding of the key, `undefined` when there is none. */
  function LookupOp(ops: seq<(string, OpAcl)>, name: string): OpAcl {
    if ops == [] then Missing else if ops[0].0 == name then ops[0].1 else LookupOp(ops[1..], name)
  }

  // ---------------------------------------------------------------- xcAclSave

  datatype SaveError =
    /** The 'Please upgrade' error: column-level rules that differ between columns. */
    | UpgradeRequired
    /** A non-boolean operation value without `columns`: reading it throws a `TypeError`. */
    | MalformedOpAcl

  /** Every column-level value of a rule is the same boolean (true of an empty rule). */
  predicate Uniform(columns: map<string, bool>) {
    forall a, b :: a in columns.Values && b in columns.Values ==> a == b
  }

  /** Values the loop passes over without throwing. */
  predicate Accepted(v: OpAcl) {
    v.Flag? || (v.Rule? && v.columns.Some? && Uniform(v.columns.value))
  }

  /** Values the loop cannot read: `undefined`, or an object without `columns`. */
  predicate Malformed(v: OpAcl) {
    v.Missing? || (v.Rule? && v.columns.None?)
  }

  /** What reaching a value does: nothing when it is accepted, else the error it raises. */
  function ErrorOf(v: OpAcl): Option<SaveError> {
    if Accepted(v) then None else if Malformed(v) then Some(MalformedOpAcl) else Some(UpgradeRequired)
  }

  /** Entry `k` is the first value of `ops` that is not accepted. */
  predicate FirstOffendingOp(ops: seq<(string, OpAcl)>, k: int) {
    0 <= k < |ops| && !Accepted(ops[k].1) && forall j :: 0 <= j < k ==> Accepted(ops[j].1)
  }

  /** The inner loop over one role's operation values, in key order. */
  function CheckOps(ops: seq<(string, OpAcl)>): (r: Option<SaveError>)
    ensures r.None? <==> forall j :: 0 <= j < |ops| ==> Accepted(ops[j].1)
    ensures r == Some(UpgradeRequired) ==> exists j :: 0 <= j < |ops| && !Accepted(ops[j].1) && !Malformed(ops[j].1)
    ensures r == Some(MalformedOpAcl) ==> exists j :: 0 <= j < |ops| && Malformed(ops[j].1)
    // the first value that is not accepted decides the error
    ensures r.Some? ==> exists k :: FirstOffendingOp(ops, k) && r == ErrorOf(ops[k].1)
  {
    if ops == [] then None
    else
      var v := ops[0].1;
      if Accepted(v) then
        var r := CheckOps(ops[1..]);
        if r.Some? then
          var k :| FirstOffendingOp(ops[1..], k) && r == ErrorOf(ops[1..][k].1);
          assert FirstOffendingOp(ops, k + 1);
          r
        else r
      else
        assert FirstOffendingOp(ops, 0);
        if Malformed(v) then Some(MalformedOpAcl) else Some(UpgradeRequired)
  }

  /** The value of operation entry `j` of role `i`, when role `i` has per-operation values. */
  predicate EntryAt(acl: seq<(string, RoleAcl)>, i: int, j: int, v: OpAcl) {
    0 <= i < |acl| && acl[i].1.PerOp? && 0 <= j < |acl[i].1.ops| && acl[i].1.ops[j].1 == v
  }

  /** A role ACL whose values are all accepted (a boolean role ACL has none). */
  predicate RoleAccepted(a: RoleAcl) {
    a.AllOps? || forall j :: 0 <= j < |a.ops| ==> Accepted(a.ops[j].1)
  }

  /** Entry `j` of role `i` is the first value, in iteration order, that is not accepted. */
  predicate FirstOffence(acl: seq<(string, RoleAcl)>, i: int, j: int) {
    && 0 <= i < |acl| && acl[i].1.PerOp?
    && (forall i' :: 0 <= i' < i ==> RoleAccepted(acl[i'].1))
    && FirstOffendingOp(acl[i].1.ops, j)
  }

  /**
   * The validation loop of `xcAclSave`. Boolean role ACLs have no values to
   * visit and boolean operation values are skipped; the first other value that
   * is unreadable or non-uniform ends the loop with its error.
   */
  function SaveValidation(acl: seq<(string, RoleAcl)>): (r: Option<SaveError>)
    ensures r.None? <==> forall i, j, v :: EntryAt(acl, i, j, v) ==> Accepted(v)
    ensures r == Some(UpgradeRequired) ==> exists i, j, v :: EntryAt(acl, i, j, v) && !Accepted(v) && !Malformed(v)
    ensures r == Some(MalformedOpAcl) ==> exists i, j, v :: EntryAt(acl, i, j, v) && Malformed(v)
    // the first value, over roles and then operations, that is not accepted decides the error
    ensures r.Some? ==> exists i, j :: FirstOffence(acl, i, j) && r == ErrorOf(acl[i].1.ops[j].1)
  {
    if acl == [] then None
    else
      var head := match acl[0].1 case AllOps(_) => None case PerOp(ops) => CheckOps(ops);
      var rest := SaveValidation(acl[1..]);
      assert forall i, j, v :: EntryAt(acl[1..], i, j, v) ==> EntryAt(acl, i + 1, j, v);
      assert forall i, j, v :: EntryAt(acl, i, j, v) && i > 0 ==> EntryAt(acl[1..], i - 1, j, v);
      if head.Some? then
        assert acl[0].1.PerOp?;
        assert forall j :: 0 <= j < |acl[0].1.ops| ==> EntryAt(acl, 0, j, acl[0].1.ops[j].1);
        var k :| FirstOffendingOp(acl[0].1.ops, k) && head == ErrorOf(acl[0].1.ops[k].1);
        assert FirstOffence(acl, 0, k);
        head
      else
        assert RoleAccepted(acl[0].1);
        if rest.Some? then
          var i, j :| FirstOffence(acl[1..], i, j) && rest == ErrorOf(acl[1..][i].1.ops[j].1);
          assert forall i' :: 0 <= i' < i + 1 ==> RoleAccepted(acl[i'].1) by {
            forall i' | 0 <= i' < i + 1 ensures RoleAccepted(acl[i'].1) {
              if i' > 0 { assert acl[i'] == acl[1..][i' - 1]; }
            }
          }
          assert FirstOffence(acl, i + 1, j);
          rest
        else rest
  }

  /** When every value is readable, the save is refused exactly when some column rule is non-uniform. */
  lemma SaveRefusedIffNonUniform(acl: seq<(string, RoleAcl)>)
    requires forall i, j, v :: EntryAt(acl, i, j, v) ==> !Malformed(v)
    ensures SaveValidation(acl) == Some(UpgradeRequired)
            <==> exists i, j, v :: EntryAt(acl, i, j, v) && v.Rule? && v.columns.Some? && !Uniform(v.columns.value)
  {
    var r := SaveValidation(acl);
    if r == Some(UpgradeRequired) {
      var i, j, v :| EntryAt(acl, i, j, v) && !Accepted(v) && !Malformed(v);
      assert v.Rule? && v.columns.Some? && !Uniform(v.columns.value);
    }
    if exists i, j, v :: EntryAt(acl, i, j, v) && v.Rule? && v.columns.Some? && !Uniform(v.columns.value) {
      var i, j, v :| EntryAt(acl, i, j, v) && v.Rule? && v.columns.Some? && !Uniform(v.columns.value);
      assert !Accepted(v);
      assert r.Some?;
      assert r.value != MalformedOpAcl;
    }
  }

  // ------------------------------------------------------- xcAclAggregatedGet

  /** The four operation values of one role in the aggregate. */
  datatype Grants = Grants(create: OpAcl, read: OpAcl, update: OpAcl, delete: OpAcl) {
    function Get(op: Op): OpAcl {
      match op
      case Create => create
      case Read => read
      case Update => update
      case Delete => delete
    }
  }

  /** Every operation denied: the start value for every listed role. */
  const Denied: Grants := Grants(Flag(false), Flag(false), Flag(false), Flag(false))
  /** Nothing set: the start value for a role first met in an ACL row. */
  const Unset: Grants := Grants(Missing, Missing, Missing, Missing)

  /** Whether one role ACL grants an operation, read the way the fold reads it. */
  predicate GrantsOp(acl: RoleAcl, op: Op) {
    match acl
    case AllOps(b) => b
    case PerOp(ops) =>
      var v := LookupOp(ops, OpName(op));
      if v.Rule? && v.columns.Some? then true in v.columns.value.Values else Truthy(v)
  }

  /** The update of one operation value: a truthy value is kept, otherwise the ACL's value is taken. */
  function StepOp(cur: OpAcl, acl: RoleAcl, op: Op): (r: OpAcl)
    ensures Truthy(r) <==> Truthy(cur) || GrantsOp(acl, op)
    ensures Truthy(cur) ==> r == cur
  {
    if Truthy(cur) then cur
    else match acl
      case AllOps(b) => Flag(b)
      case PerOp(ops) =>
        var v := LookupOp(ops, OpName(op));
        if v.Rule? && v.columns.Some? then Flag(true in v.columns.value.Values) else v
  }

  function StepRole(g: Grants, acl: RoleAcl): (r: Grants)
    ensures forall op :: r.Get(op) == StepOp(g.Get(op), acl, op)
  {
    Grants(StepOp(g.create, acl, Create), StepOp(g.read, acl, Read),
           StepOp(g.update, acl, Update), StepOp(g.delete, acl, Delete))
  }

  function Current(res: map<string, Grants>, role: string): Grants {
    if role in res then res[role] else Unset
  }

  /** One ACL row: every role key in order. */
  function ApplyRow(res: map<string, Grants>, row: seq<(string, RoleAcl)>): (r: map<string, Grants>)
    // the row adds an entry for each role it names and touches no other entry
    ensures forall role :: role in r <==> role in res || RowMentions(row, role)
    ensures forall role :: role in res && !RowMentions(row, role) ==> r[role] == res[role]
    decreases |row|
  {
    if row == [] then res
    else
      var res' := res[row[0].0 := StepRole(Current(res, row[0].0), row[0].1)];
      var r := ApplyRow(res', row[1..]);
      assert forall role :: RowMentions(row[1..], role) ==> RowMentions(row, role) by {
        forall role | RowMentions(row[1..], role) ensures RowMentions(row, role) {
          var j :| 0 <= j < |row[1..]| && row[1..][j].0 == role;
          assert row[j + 1].0 == role;
        }
      }
      assert forall role :: RowMentions(row, role) && role != row[0].0 ==> RowMentions(row[1..], role) by {
        forall role | RowMentions(row, role) && role != row[0].0 ensures RowMentions(row[1..], role) {
          var j :| 0 <= j < |row| && row[j].0 == role;
          assert row[1..][j - 1].0 == role;
        }
      }
      // index 0 witnesses that the row names its first role
      assert RowMentions(row, row[0].0) by { assert 0 < |row| && row[0].0 == row[0].0; }
      r
  }

  function ApplyRows(res: map<string, Grants>, rows: seq<seq<(string, RoleAcl)>>): (r: map<string, Grants>)
    ensures forall role :: role in r <==> role in res || RowsMention(rows, role)
    ensures forall role :: role in res && !RowsMention(rows, role) ==> r[role] == res[role]
    decreases |rows|
  {
    if rows == [] then res
    else
      var r := ApplyRows(ApplyRow(res, rows[0]), rows[1..]);
      assert forall role :: RowsMention(rows[1..], role) ==> RowsMention(rows, role) by {
        forall role | RowsMention(rows[1..], role) ensures RowsMention(rows, role) {
          var i :| 0 <= i < |rows[1..]| && RowMentions(rows[1..][i], role);
          assert rows[1..][i] == rows[i + 1];
        }
      }
      assert forall role :: RowsMention(rows, role) && !RowMentions(rows[0], role) ==> RowsMention(rows[1..], role) by {
        forall role | RowsMention(rows, role) && !RowMentions(rows[0], role) ensures RowsMention(rows[1..], role) {
          var i :| 0 <= i < |rows| && RowMentions(rows[i], role);
          assert rows[1..][i - 1] == rows[i];
        }
      }
      assert forall role :: RowMentions(rows[0], role) ==> RowsMention(rows, role);
      r
  }

  function InitialGrants(roles: seq<string>): (res: map<string, Grants>)
    ensures res.Keys == set r | r in roles
    ensures forall r :: r in res ==> res[r] == Denied
  {
    map r | r in roles :: Denied
  }

  /** `xcAclAggregatedGet` over the ACL rows of every database of the project. */
  function AggregatedAcl(roles: seq<string>, rows: seq<seq<(string, RoleAcl)>>): (r: map<string, Grants>)
    // a role is reported when it is listed or named by some ACL row
    ensures forall role :: role in r <==> role in roles || RowsMention(rows, role)
    // a listed role no row names is denied every operation
    ensures forall role :: role in roles && !RowsMention(rows, role) ==> r[role] == Denied
  {
    ApplyRows(InitialGrants(roles), rows)
  }

  predicate RowGrants(row: seq<(string, RoleAcl)>, role: string, op: Op) {
    exists j :: 0 <= j < |row| && row[j].0 == role && GrantsOp(row[j].1, op)
  }

  predicate RowsGrant(rows: seq<seq<(string, RoleAcl)>>, role: string, op: Op) {
    exists i :: 0 <= i < |rows| && RowGrants(rows[i], role, op)
  }

  predicate RowMentions(row: seq<(string, RoleAcl)>, role: string) {
    exists j :: 0 <= j < |row| && row[j].0 == role
  }

  predicate RowsMention(rows: seq<seq<(string, RoleAcl)>>, role: string) {
    exists i :: 0 <= i < |rows| && RowMentions(rows[i], role)
  }

  lemma {:induction false} ApplyRowTruth(res: map<string, Grants>, row: seq<(string, RoleAcl)>, role: string, op: Op)
    ensures Truthy(Current(ApplyRow(res, row), role).Get(op)) <==> Truthy(Current(res, role).Get(op)) || RowGrants(row, role, op)
    ensures !RowMentions(row, role) ==> Current(ApplyRow(res, row), role) == Current(res, role)
    ensures role in ApplyRow(res, row) <==> role in res || RowMentions(row, role)
    decreases |row|
  {
    if row != [] {
      var res' := res[row[0].0 := StepRole(Current(res, row[0].0), row[0].1)];
      ApplyRowTruth(res', row[1..], role, op);
      assert forall j :: 0 <= j < |row| - 1 ==> row[1..][j] == row[j + 1];
      assert RowGrants(row, role, op) <==> (row[0].0 == role && GrantsOp(row[0].1, op)) || RowGrants(row[1..], role, op) by {
        if RowGrants(row, role, op) {
          var j :| 0 <= j < |row| && row[j].0 == role && GrantsOp(row[j].1, op);
          if j > 0 { assert row[1..][j - 1] == row[j]; }
        }
      }
      assert RowMentions(row, role) <==> row[0].0 == role || RowMentions(row[1..], role) by {
        if RowMentions(row, role) {
          var j :| 0 <= j < |row| && row[j].0 == role;
          if j > 0 { assert row[1..][j - 1] == row[j]; }
        }
      }
    }
  }

  lemma {:induction false} ApplyRowsTruth(res: map<string, Grants>, rows: seq<seq<(string, RoleAcl)>>, role: string, op: Op)
    ensures Truthy(Current(ApplyRows(res, rows), role).Get(op)) <==> Truthy(Current(res, role).Get(op)) || RowsGrant(rows, role, op)
    ensures (forall i :: 0 <= i < |rows| ==> !RowMentions(rows[i], role)) ==>
              Current(ApplyRows(res, rows), role) == Current(res, role)
    ensures role in res ==> role in ApplyRows(res, rows)
    decreases |rows|
  {
    if rows != [] {
      ApplyRowTruth(res, rows[0], role, op);
      ApplyRowsTruth(ApplyRow(res, rows[0]), rows[1..], role, op);
      assert RowsGrant(rows, role, op) <==> RowGrants(rows[0], role, op) || RowsGrant(rows[1..], role, op) by {
        if RowsGrant(rows, role, op) {
          var i :| 0 <= i < |rows| && RowGrants(rows[i], role, op);
          if i > 0 { assert rows[1..][i - 1] == rows[i]; }
        }
        if RowsGrant(rows[1..], role, op) {
          var i :| 0 <= i < |rows| - 1 && RowGrants(rows[1..][i], role, op);
          assert rows[1..][i] == rows[i + 1];
        }
      }
      if forall i :: 0 <= i < |rows| ==> !RowMentions(rows[i], role) {
        assert forall i :: 0 <= i < |rows| - 1 ==> rows[1..][i] == rows[i + 1];
      }
    }
  }

  /**
   * A role's aggregated operation is truthy exactly when some ACL row grants
   * it to that role; every listed role is reported, and a listed role no row
   * mentions keeps all four operations `false`.
   */
  lemma AggregatedAclCharacterised(roles: seq<string>, rows: seq<seq<(string, RoleAcl)>>, role: string, op: Op)
    ensures Truthy(Current(AggregatedAcl(roles, rows), role).Get(op)) <==> RowsGrant(rows, role, op)
    ensures role in roles ==> role in AggregatedAcl(roles, rows)
    ensures role in roles && (forall i :: 0 <= i < |rows| ==> !RowMentions(rows[i], role)) ==>
              AggregatedAcl(roles, rows)[role] == Denied
  {
    ApplyRowsTruth(InitialGrants(roles), rows, role, op);
  }

  /** Folding more rows never withdraws a grant. */
  lemma AggregationMonotone(roles: seq<string>, rows: seq<seq<(string, RoleAcl)>>, more: seq<seq<(string, RoleAcl)>>,
                            role: string, op: Op)
    requires Truthy(Current(AggregatedAcl(roles, rows), role).Get(op))
    ensures Truthy(Current(AggregatedAcl(roles, rows + more), role).Get(op))
  {
    AggregatedAclCharacterised(roles, rows, role, op);
    var i :| 0 <= i < |rows| && RowGrants(rows[i], role, op);
    assert (rows + more)[i] == rows[i];
    AggregatedAclCharacterised(roles, rows + more, role, op);
  }
}
