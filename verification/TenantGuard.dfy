/**
 * app/db/tenant_scope.py and app/core/tenant_context.py: every query of a tenant
 * is rewritten to see that tenant's rows only, and every new row is stamped.
 */
module TenantGuard {
  import opened Wrappers

  type TenantId = int
  type Table = string

  /** A stored row. `tenant` is None exactly for the rows of a global table. */
  datatype Row = Row(table: Table, tenant: Option<TenantId>, id: int, vals: map<string, int>)

  /** A joined tuple, with a hole where an outer join found nothing. */
  type Tuple = seq<Option<Row>>

  /** FROM clauses: tables, inner joins and left outer joins. */
  datatype From =
    | Scan(table: Table)
    | Join(left: From, table: Table, on: Cond)
    | LeftJoin(left: From, table: Table, on: Cond)

  /** Conditions over the tuple so far; a sub-query may refer to the outer tuple. */
  datatype Cond =
    | Test(test: Tuple -> bool)
    | Owned(slot: nat, owner: TenantId)
    | And(c1: Cond, c2: Cond)
    | Not(c: Cond)
    | Exists(from: From, filter: Cond)

  const ALWAYS := Test(x => true)

  // ---- what a query returns -----------------------------------------------------

  function Rows(db: seq<Row>, t: Table): seq<Row> {
    if db == [] then []
    else if db[0].table == t then [db[0]] + Rows(db[1..], t)
    else Rows(db[1..], t)
  }

  function Extend(env: Tuple, rows: seq<Row>): seq<Tuple> {
    if rows == [] then [] else [env + [Some(rows[0])]] + Extend(env, rows[1..])
  }

  predicate Holds(db: seq<Row>, c: Cond, x: Tuple)
    decreases c, 0, 0
  {
    match c
    case Test(test) => test(x)
    case Owned(slot, owner) => slot < |x| && x[slot].Some? && x[slot].value.tenant == Some(owner)
    case And(c1, c2) => Holds(db, c1, x) && Holds(db, c2, x)
    case Not(c1) => !Holds(db, c1, x)
    case Exists(from, filter) => Keep(db, filter, Eval(db, from, x)) != []
  }

  function Keep(db: seq<Row>, c: Cond, xs: seq<Tuple>): seq<Tuple>
    decreases c, 1, |xs|
  {
    if xs == [] then []
    else if Holds(db, c, xs[0]) then [xs[0]] + Keep(db, c, xs[1..])
    else Keep(db, c, xs[1..])
  }

  /** The tuples of `env` extended by one row of each table of the FROM clause. */
  function Eval(db: seq<Row>, f: From, env: Tuple): seq<Tuple>
    decreases f, 0, 0
  {
    match f
    case Scan(t) => Extend(env, Rows(db, t))
    case Join(left, t, on) => JoinAll(db, on, Eval(db, left, env), Rows(db, t), false)
    case LeftJoin(left, t, on) => JoinAll(db, on, Eval(db, left, env), Rows(db, t), true)
  }

  function JoinAll(db: seq<Row>, on: Cond, xs: seq<Tuple>, rows: seq<Row>, outer: bool): seq<Tuple>
    decreases on, 2, |xs|
  {
    if xs == [] then []
    else
      var matches := Keep(db, on, Extend(xs[0], rows));
      (if outer && matches == [] then [xs[0] + [None]] else matches) + JoinAll(db, on, xs[1..], rows, outer)
  }

  function Select(db: seq<Row>, f: From, where_: Cond, env: Tuple): seq<Tuple> {
    Keep(db, where_, Eval(db, f, env))
  }

  // ---- what a SELECT means --------------------------------------------------------------

  /** `r` is a stored row of the table. */
  predicate Stored(db: seq<Row>, t: Table, r: Row) {
    r in db && r.table == t
  }

  /**
   * `x` answers the FROM clause: one stored row for each table, related by the ON
   * conditions, with a hole exactly where no row of an outer-joined table is related.
   */
  ghost predicate Answers(db: seq<Row>, f: From, env: Tuple, x: Tuple)
    decreases f
  {
    match f
    case Scan(t) => exists r :: Stored(db, t, r) && x == env + [Some(r)]
    case Join(left, t, on) =>
      && x != [] && Answers(db, left, env, x[..|x| - 1])
      && x[|x| - 1].Some? && Stored(db, t, x[|x| - 1].value) && Holds(db, on, x)
    case LeftJoin(left, t, on) =>
      && x != [] && Answers(db, left, env, x[..|x| - 1])
      && match x[|x| - 1]
         case Some(r) => Stored(db, t, r) && Holds(db, on, x)
         case None => forall r :: Stored(db, t, r) ==> !Holds(db, on, x[..|x| - 1] + [Some(r)])
  }

  lemma {:induction false} RowsIs(db: seq<Row>, t: Table)
    ensures forall r :: r in Rows(db, t) <==> Stored(db, t, r)
  {
    if db != [] {
      RowsIs(db[1..], t);
      assert db == [db[0]] + db[1..];
    }
  }

  lemma {:induction false} ExtendIs(env: Tuple, rows: seq<Row>)
    ensures forall x :: x in Extend(env, rows) <==> exists r :: r in rows && x == env + [Some(r)]
  {
    if rows != [] {
      ExtendIs(env, rows[1..]);
      assert rows == [rows[0]] + rows[1..];
    }
  }

  lemma {:induction false} KeepIs(db: seq<Row>, c: Cond, xs: seq<Tuple>)
    ensures forall x :: x in Keep(db, c, xs) <==> x in xs && Holds(db, c, x)
  {
    if xs != [] {
      hide Holds;
      KeepIs(db, c, xs[1..]);
      assert xs == [xs[0]] + xs[1..];
    }
  }

  /** `x` is `y` with a related row, or with a hole for want of one. */
  ghost predicate Joins(db: seq<Row>, on: Cond, y: Tuple, rows: seq<Row>, outer: bool, x: Tuple) {
    || (exists r :: r in rows && x == y + [Some(r)] && Holds(db, on, x))
    || (outer && x == y + [None] && forall r :: r in rows ==> !Holds(db, on, y + [Some(r)]))
  }

  ghost predicate JoinedFrom(db: seq<Row>, on: Cond, xs: seq<Tuple>, rows: seq<Row>, outer: bool, x: Tuple) {
    exists y :: y in xs && Joins(db, on, y, rows, outer, x)
  }

  lemma JoinOne(db: seq<Row>, on: Cond, y: Tuple, rows: seq<Row>, outer: bool, x: Tuple)
    ensures var matches := Keep(db, on, Extend(y, rows));
            x in (if outer && matches == [] then [y + [None]] else matches) <==> Joins(db, on, y, rows, outer, x)
  {
    hide Holds, Extend, Keep;
    ExtendIs(y, rows);
    KeepIs(db, on, Extend(y, rows));
    var matches := Keep(db, on, Extend(y, rows));
    if matches != [] {
      assert matches[0] in matches;
    }
    forall r | r in rows && Holds(db, on, y + [Some(r)]) ensures matches != [] {
      assert y + [Some(r)] in Extend(y, rows);
      assert y + [Some(r)] in matches;
    }
  }

  lemma {:induction false} JoinIs(db: seq<Row>, on: Cond, xs: seq<Tuple>, rows: seq<Row>, outer: bool, x: Tuple)
    ensures x in JoinAll(db, on, xs, rows, outer) <==> JoinedFrom(db, on, xs, rows, outer, x)
    decreases |xs|
  {
    if xs != [] {
      hide Holds, Extend, Keep, Joins;
      JoinIs(db, on, xs[1..], rows, outer, x);
      JoinOne(db, on, xs[0], rows, outer, x);
      assert xs == [xs[0]] + xs[1..];
    }
  }

  lemma {:induction false} EvalIs(db: seq<Row>, f: From, env: Tuple, x: Tuple)
    ensures x in Eval(db, f, env) <==> Answers(db, f, env, x)
    decreases f
  {
    hide Holds, Rows, Extend, JoinAll, JoinedFrom, Answers;
    match f
    case Scan(t) =>
      RowsIs(db, t);
      ExtendIs(env, Rows(db, t));
      ScanAnswers(db, t, env, x);
    case Join(left, t, on) =>
      JoinIs(db, on, Eval(db, left, env), Rows(db, t), false, x);
      forall y ensures y in Eval(db, left, env) <==> Answers(db, left, env, y) {
        EvalIs(db, left, env, y);
      }
      JoinedAnswers(db, left, t, on, env, Eval(db, left, env), x, false);
    case LeftJoin(left, t, on) =>
      JoinIs(db, on, Eval(db, left, env), Rows(db, t), true, x);
      forall y ensures y in Eval(db, left, env) <==> Answers(db, left, env, y) {
        EvalIs(db, left, env, y);
      }
      JoinedAnswers(db, left, t, on, env, Eval(db, left, env), x, true);
  }

  lemma ScanAnswers(db: seq<Row>, t: Table, env: Tuple, x: Tuple)
    ensures Answers(db, Scan(t), env, x) <==> exists r :: Stored(db, t, r) && x == env + [Some(r)]
  {
  }

  lemma JoinedAnswers(db: seq<Row>, left: From, t: Table, on: Cond, env: Tuple, xs: seq<Tuple>, x: Tuple, outer: bool)
    requires forall y :: y in xs <==> Answers(db, left, env, y)
    ensures JoinedFrom(db, on, xs, Rows(db, t), outer, x) <==>
            Answers(db, if outer then LeftJoin(left, t, on) else Join(left, t, on), env, x)
  {
    hide Holds, Rows, Joins, Answers;
    if y :| y in xs && Joins(db, on, y, Rows(db, t), outer, x) {
      JoinedIsAnswer(db, left, t, on, env, y, x, outer);
    }
    if Answers(db, if outer then LeftJoin(left, t, on) else Join(left, t, on), env, x) {
      AnswerIsJoined(db, left, t, on, env, x, outer);
    }
  }

  lemma JoinedIsAnswer(db: seq<Row>, left: From, t: Table, on: Cond, env: Tuple, y: Tuple, x: Tuple, outer: bool)
    requires Answers(db, left, env, y) && Joins(db, on, y, Rows(db, t), outer, x)
    ensures Answers(db, if outer then LeftJoin(left, t, on) else Join(left, t, on), env, x)
  {
    hide Holds, Rows;
    RowsIs(db, t);
    assert x[..|x| - 1] == y;
  }

  lemma AnswerIsJoined(db: seq<Row>, left: From, t: Table, on: Cond, env: Tuple, x: Tuple, outer: bool)
    requires Answers(db, if outer then LeftJoin(left, t, on) else Join(left, t, on), env, x)
    ensures x != [] && Answers(db, left, env, x[..|x| - 1])
    ensures Joins(db, on, x[..|x| - 1], Rows(db, t), outer, x)
  {
    hide Holds, Rows;
    RowsIs(db, t);
    assert x == x[..|x| - 1] + [x[|x| - 1]];
  }

  /** A SELECT returns exactly the tuples that answer its FROM clause and meet its WHERE clause. */
  lemma SelectMeans(db: seq<Row>, f: From, where_: Cond, x: Tuple)
    ensures x in Select(db, f, where_, []) <==> Answers(db, f, [], x) && Holds(db, where_, x)
  {
    EvalIs(db, f, [], x);
    KeepIs(db, where_, Eval(db, f, []));
  }

  /** A sub-query holds exactly if something answers it; it may refer to the outer tuple. */
  lemma ExistsMeans(db: seq<Row>, from: From, filter: Cond, x: Tuple)
    ensures Holds(db, Exists(from, filter), x) <==> exists y :: Answers(db, from, x, y) && Holds(db, filter, y)
  {
    hide Eval, Keep, Answers;
    var all := Eval(db, from, x);
    var some := Keep(db, filter, all);
    KeepIs(db, filter, all);
    if some != [] {
      assert some[0] in some;
      EvalIs(db, from, x, some[0]);
      assert Answers(db, from, x, some[0]) && Holds(db, filter, some[0]);
    }
    if y :| Answers(db, from, x, y) && Holds(db, filter, y) {
      EvalIs(db, from, x, y);
      assert y in some;
    }
  }

  // ---- the rewriting -----------------------------------------------------------------

  /** The loader criterion of one entity; the rows of a global table have no tenant to compare. */
  function Criterion(scoped: set<Table>, t: Table, slot: nat, owner: TenantId): Cond {
    if t in scoped then Owned(slot, owner) else ALWAYS
  }

  function Width(f: From): nat {
    match f
    case Scan(_) => 1
    case Join(left, _, _) => Width(left) + 1
    case LeftJoin(left, _, _) => Width(left) + 1
  }

  /** Joined entities get their criterion in the ON clause. */
  function GuardFrom(scoped: set<Table>, f: From, owner: TenantId, base: nat): From {
    match f
    case Scan(_) => f
    case Join(left, t, on) =>
      var slot := base + Width(left);
      Join(GuardFrom(scoped, left, owner, base), t,
           And(GuardCond(scoped, on, owner, slot + 1), Criterion(scoped, t, slot, owner)))
    case LeftJoin(left, t, on) =>
      var slot := base + Width(left);
      LeftJoin(GuardFrom(scoped, left, owner, base), t,
               And(GuardCond(scoped, on, owner, slot + 1), Criterion(scoped, t, slot, owner)))
  }

  function FirstTable(f: From): Table {
    match f
    case Scan(t) => t
    case Join(left, _, _) => FirstTable(left)
    case LeftJoin(left, _, _) => FirstTable(left)
  }

  /** The first entity gets its criterion in the WHERE clause; sub-queries are guarded too. */
  function GuardWhere(scoped: set<Table>, f: From, where_: Cond, owner: TenantId, base: nat): Cond {
    And(Criterion(scoped, FirstTable(f), base, owner), GuardCond(scoped, where_, owner, base + Width(f)))
  }

  function GuardCond(scoped: set<Table>, c: Cond, owner: TenantId, width: nat): Cond {
    match c
    case Test(_) => c
    case Owned(_, _) => c
    case And(c1, c2) => And(GuardCond(scoped, c1, owner, width), GuardCond(scoped, c2, owner, width))
    case Not(c1) => Not(GuardCond(scoped, c1, owner, width))
    case Exists(from, filter) =>
      Exists(GuardFrom(scoped, from, owner, width),
             And(Criterion(scoped, FirstTable(from), width, owner),
                 GuardCond(scoped, filter, owner, width + Width(from))))
  }

  // ---- the projection ------------------------------------------------------------------

  /** The rows are tagged with a tenant exactly in the scoped tables. */
  ghost predicate WellTagged(scoped: set<Table>, db: seq<Row>) {
    forall r :: r in db ==> (r.table in scoped <==> r.tenant.Some?)
  }

  predicate Visible(r: Row, owner: TenantId) {
    r.tenant == None || r.tenant == Some(owner)
  }

  /** The database as if only this tenant existed. */
  function Project(db: seq<Row>, owner: TenantId): seq<Row> {
    if db == [] then []
    else if Visible(db[0], owner) then [db[0]] + Project(db[1..], owner)
    else Project(db[1..], owner)
  }

  /** The rows of all the other tenants. */
  function Foreign(db: seq<Row>, owner: TenantId): seq<Row> {
    if db == [] then []
    else if Visible(db[0], owner) then Foreign(db[1..], owner)
    else [db[0]] + Foreign(db[1..], owner)
  }

  lemma RowsCons(r: Row, db: seq<Row>, t: Table)
    ensures Rows([r] + db, t) == if r.table == t then [r] + Rows(db, t) else Rows(db, t)
  {
    assert ([r] + db)[1..] == db;
  }

  lemma ProjectCons(r: Row, db: seq<Row>, owner: TenantId)
    ensures Project([r] + db, owner) == if Visible(r, owner) then [r] + Project(db, owner) else Project(db, owner)
  {
    assert ([r] + db)[1..] == db;
  }

  lemma ExtendCons(x: Tuple, r: Row, rows: seq<Row>)
    ensures Extend(x, [r] + rows) == [x + [Some(r)]] + Extend(x, rows)
  {
    assert ([r] + rows)[1..] == rows;
  }

  lemma KeepCons(db: seq<Row>, c: Cond, x: Tuple, xs: seq<Tuple>)
    ensures Keep(db, c, [x] + xs) == if Holds(db, c, x) then [x] + Keep(db, c, xs) else Keep(db, c, xs)
  {
    assert ([x] + xs)[1..] == xs;
  }

  lemma JoinCons(db: seq<Row>, on: Cond, x: Tuple, xs: seq<Tuple>, rows: seq<Row>, outer: bool)
    ensures var matches := Keep(db, on, Extend(x, rows));
            JoinAll(db, on, [x] + xs, rows, outer) ==
            (if outer && matches == [] then [x + [None]] else matches) + JoinAll(db, on, xs, rows, outer)
  {
    assert ([x] + xs)[1..] == xs;
  }

  lemma {:induction false} ProjectRows(scoped: set<Table>, db: seq<Row>, t: Table, owner: TenantId)
    requires WellTagged(scoped, db)
    ensures Rows(Project(db, owner), t) == if t in scoped then Project(Rows(db, t), owner) else Rows(db, t)
  {
    if db != [] {
      ProjectRows(scoped, db[1..], t, owner);
      assert db[0] in db;
      RowsCons(db[0], Project(db[1..], owner), t);
      ProjectCons(db[0], Rows(db[1..], t), owner);
    }
  }

  lemma {:induction false} RowsOfTable(scoped: set<Table>, db: seq<Row>, t: Table)
    requires WellTagged(scoped, db)
    ensures forall r :: r in Rows(db, t) ==> r.table == t && (t in scoped <==> r.tenant.Some?)
  {
    if db != [] {
      assert db[0] in db;
      RowsOfTable(scoped, db[1..], t);
    }
  }

  // ---- the rewriting is the projection ---------------------------------------------------

  /** Every tuple starts with `env` and has one more slot for each table. */
  ghost predicate Shaped(xs: seq<Tuple>, env: Tuple, width: nat) {
    forall i :: 0 <= i < |xs| ==> |xs[i]| == |env| + width && env <= xs[i]
  }

  lemma {:induction false} ExtendShaped(x: Tuple, rows: seq<Row>)
    ensures Shaped(Extend(x, rows), x, 1)
  {
    if rows != [] {
      ExtendShaped(x, rows[1..]);
    }
  }

  lemma {:induction false} KeepSubset(db: seq<Row>, c: Cond, xs: seq<Tuple>)
    ensures forall x :: x in Keep(db, c, xs) ==> x in xs
  {
    if xs != [] {
      KeepSubset(db, c, xs[1..]);
    }
  }

  lemma {:induction false} JoinShaped(db: seq<Row>, on: Cond, xs: seq<Tuple>, rows: seq<Row>, outer: bool, env: Tuple,
                                      width: nat)
    requires Shaped(xs, env, width)
    ensures Shaped(JoinAll(db, on, xs, rows, outer), env, width + 1)
    decreases |xs|
  {
    if xs != [] {
      var all := Extend(xs[0], rows);
      var matches := Keep(db, on, all);
      ExtendShaped(xs[0], rows);
      KeepSubset(db, on, all);
      forall i | 0 <= i < |matches| ensures |matches[i]| == |env| + width + 1 && env <= matches[i] {
        assert matches[i] in all;
      }
      JoinShaped(db, on, xs[1..], rows, outer, env, width);
    }
  }

  lemma {:induction false} EvalShaped(db: seq<Row>, f: From, env: Tuple)
    ensures Shaped(Eval(db, f, env), env, Width(f))
    decreases f
  {
    match f
    case Scan(t) => ExtendShaped(env, Rows(db, t));
    case Join(left, t, on) =>
      EvalShaped(db, left, env);
      JoinShaped(db, on, Eval(db, left, env), Rows(db, t), false, env, Width(left));
    case LeftJoin(left, t, on) =>
      EvalShaped(db, left, env);
      JoinShaped(db, on, Eval(db, left, env), Rows(db, t), true, env, Width(left));
  }

  /** Tuples extended by the rows of a table and filtered by its criterion are those of the projection. */
  lemma {:induction false} KeepExtend(scoped: set<Table>, db: seq<Row>, on: Cond, rows: seq<Row>, t: Table, x: Tuple,
                                      owner: TenantId)
    requires WellTagged(scoped, db)
    requires forall r :: r in rows ==> (t in scoped <==> r.tenant.Some?)
    ensures Keep(db, And(GuardCond(scoped, on, owner, |x| + 1), Criterion(scoped, t, |x|, owner)), Extend(x, rows)) ==
            Keep(Project(db, owner), on, Extend(x, if t in scoped then Project(rows, owner) else rows))
    decreases on, 1, |rows|
  {
    if rows != [] {
      var y := x + [Some(rows[0])];
      assert rows[0] in rows;
      KeepExtend(scoped, db, on, rows[1..], t, x, owner);
      GuardedCond(scoped, db, on, y, owner);
      var rest := if t in scoped then Project(rows[1..], owner) else rows[1..];
      KeepCons(db, And(GuardCond(scoped, on, owner, |x| + 1), Criterion(scoped, t, |x|, owner)), y,
               Extend(x, rows[1..]));
      ExtendCons(x, rows[0], rest);
      KeepCons(Project(db, owner), on, y, Extend(x, rest));
      assert t !in scoped ==> rows == [rows[0]] + rest;
    }
  }

  lemma {:induction false} GuardedJoin(scoped: set<Table>, db: seq<Row>, on: Cond, xs: seq<Tuple>, t: Table,
                                       outer: bool,
                                      owner: TenantId, slot: nat, env: Tuple)
    requires WellTagged(scoped, db)
    requires |env| <= slot && Shaped(xs, env, slot - |env|)
    ensures JoinAll(db, And(GuardCond(scoped, on, owner, slot + 1), Criterion(scoped, t, slot, owner)), xs,
                    Rows(db, t), outer) ==
            JoinAll(Project(db, owner), on, xs, Rows(Project(db, owner), t), outer)
    decreases on, 2, |xs|
  {
    if xs != [] {
      assert |xs[0]| == slot;
      RowsOfTable(scoped, db, t);
      ProjectRows(scoped, db, t, owner);
      KeepExtend(scoped, db, on, Rows(db, t), t, xs[0], owner);
      GuardedJoin(scoped, db, on, xs[1..], t, outer, owner, slot, env);
    }
  }

  /** A condition on an early slot may be applied before or after a join. */
  lemma {:induction false} KeepThroughJoin(db: seq<Row>, c: Cond, on: Cond, xs: seq<Tuple>, rows: seq<Row>,
                                           outer: bool, env: Tuple, width: nat)
    requires Shaped(xs, env, width) && width > 0
    requires forall x: Tuple, y: Tuple :: |x| > |env| && x <= y ==> (Holds(db, c, x) <==> Holds(db, c, y))
    ensures Keep(db, c, JoinAll(db, on, xs, rows, outer)) == JoinAll(db, on, Keep(db, c, xs), rows, outer)
    decreases |xs|
  {
    if xs != [] {
      hide Holds, Extend;
      KeepThroughJoin(db, c, on, xs[1..], rows, outer, env, width);
      KeepThroughOne(db, c, on, xs[0], rows, outer, |env|);
      var all := Extend(xs[0], rows);
      var matches := Keep(db, on, all);
      var first := if outer && matches == [] then [xs[0] + [None]] else matches;
      KeepConcat(db, c, first, JoinAll(db, on, xs[1..], rows, outer));
      JoinCons(db, on, xs[0], Keep(db, c, xs[1..]), rows, outer);
      var rest := JoinAll(db, on, Keep(db, c, xs[1..]), rows, outer);
      assert [] + rest == rest;
    }
  }

  lemma KeepThroughOne(db: seq<Row>, c: Cond, on: Cond, x: Tuple, rows: seq<Row>, outer: bool, width: nat)
    requires |x| > width
    requires forall x: Tuple, y: Tuple :: |x| > width && x <= y ==> (Holds(db, c, x) <==> Holds(db, c, y))
    ensures var matches := Keep(db, on, Extend(x, rows));
            var first := if outer && matches == [] then [x + [None]] else matches;
            Keep(db, c, first) == if Holds(db, c, x) then first else []
  {
    var all := Extend(x, rows);
    var matches := Keep(db, on, all);
    var first := if outer && matches == [] then [x + [None]] else matches;
    ExtendShaped(x, rows);
    KeepSubset(db, on, all);
    forall i | 0 <= i < |first| ensures Holds(db, c, first[i]) <==> Holds(db, c, x) {
      if first[i] in matches {
        assert first[i] in all;
      }
      assert x <= first[i];
    }
    KeepAllOrNone(db, c, first, Holds(db, c, x));
  }

  lemma {:induction false} KeepAllOrNone(db: seq<Row>, c: Cond, xs: seq<Tuple>, holds: bool)
    requires forall i :: 0 <= i < |xs| ==> Holds(db, c, xs[i]) == holds
    ensures Keep(db, c, xs) == if holds then xs else []
  {
    if xs != [] {
      KeepAllOrNone(db, c, xs[1..], holds);
    }
  }

  lemma {:induction false} KeepConcat(db: seq<Row>, c: Cond, xs: seq<Tuple>, ys: seq<Tuple>)
    ensures Keep(db, c, xs + ys) == Keep(db, c, xs) + Keep(db, c, ys)
  {
    hide Holds;
    if xs == [] {
      assert xs + ys == ys;
    } else {
      KeepConcat(db, c, xs[1..], ys);
      assert (xs + ys)[1..] == xs[1..] + ys;
    }
  }

  lemma {:induction false} KeepScan(scoped: set<Table>, db: seq<Row>, rows: seq<Row>, t: Table, env: Tuple,
                                    owner: TenantId)
    requires forall r :: r in rows ==> (t in scoped <==> r.tenant.Some?)
    ensures Keep(db, Criterion(scoped, t, |env|, owner), Extend(env, rows)) ==
            Extend(env, if t in scoped then Project(rows, owner) else rows)
  {
    if rows != [] {
      assert rows[0] in rows;
      var rest := if t in scoped then Project(rows[1..], owner) else rows[1..];
      KeepScan(scoped, db, rows[1..], t, env, owner);
      KeepCons(db, Criterion(scoped, t, |env|, owner), env + [Some(rows[0])], Extend(env, rows[1..]));
      ExtendCons(env, rows[0], rest);
      assert t !in scoped ==> rows == [rows[0]] + rest;
    }
  }

  /** The guarded FROM clause, with the first entity's criterion, is the FROM clause on the projection. */
  lemma {:induction false} GuardedFrom(scoped: set<Table>, db: seq<Row>, f: From, env: Tuple, owner: TenantId)
    requires WellTagged(scoped, db)
    ensures Keep(db, Criterion(scoped, FirstTable(f), |env|, owner),
                 Eval(db, GuardFrom(scoped, f, owner, |env|), env)) ==
            Eval(Project(db, owner), f, env)
    decreases f, 0, 0
  {
    hide Keep, JoinAll, GuardCond, Holds, Rows, Project, Extend;
    match f
    case Scan(t) =>
      RowsOfTable(scoped, db, t);
      ProjectRows(scoped, db, t, owner);
      KeepScan(scoped, db, Rows(db, t), t, env, owner);
    case Join(left, t, on) => GuardedJoinFrom(scoped, db, left, t, on, false, env, owner);
    case LeftJoin(left, t, on) => GuardedJoinFrom(scoped, db, left, t, on, true, env, owner);
  }

  lemma {:induction false} GuardedJoinFrom(scoped: set<Table>, db: seq<Row>, left: From, t: Table, on: Cond,
                                           outer: bool, env: Tuple, owner: TenantId)
    requires WellTagged(scoped, db)
    ensures var slot := |env| + Width(left);
            var guarded := And(GuardCond(scoped, on, owner, slot + 1), Criterion(scoped, t, slot, owner));
            Keep(db, Criterion(scoped, FirstTable(left), |env|, owner),
                 JoinAll(db, guarded, Eval(db, GuardFrom(scoped, left, owner, |env|), env), Rows(db, t), outer)) ==
            JoinAll(Project(db, owner), on, Eval(Project(db, owner), left, env), Rows(Project(db, owner), t), outer)
    decreases if outer then LeftJoin(left, t, on) else Join(left, t, on), -1, 0
  {
    hide Eval, JoinAll, Keep, GuardFrom, GuardCond, Rows, Project;
    var slot := |env| + Width(left);
    var guarded := And(GuardCond(scoped, on, owner, slot + 1), Criterion(scoped, t, slot, owner));
    var c := Criterion(scoped, FirstTable(left), |env|, owner);
    var xs := Eval(db, GuardFrom(scoped, left, owner, |env|), env);
    GuardKeepsWidth(scoped, left, owner, |env|);
    EvalShaped(db, GuardFrom(scoped, left, owner, |env|), env);
    KeepThroughJoin(db, c, guarded, xs, Rows(db, t), outer, env, Width(left));
    GuardedFrom(scoped, db, left, env, owner);
    EvalShaped(Project(db, owner), left, env);
    GuardedJoin(scoped, db, on, Eval(Project(db, owner), left, env), t, outer, owner, slot, env);
  }

  lemma {:induction false} GuardKeepsWidth(scoped: set<Table>, f: From, owner: TenantId, base: nat)
    ensures Width(GuardFrom(scoped, f, owner, base)) == Width(f) > 0
  {
    match f
    case Scan(_) =>
    case Join(left, _, _) => GuardKeepsWidth(scoped, left, owner, base);
    case LeftJoin(left, _, _) => GuardKeepsWidth(scoped, left, owner, base);
  }

  lemma {:induction false} KeepAnd(db: seq<Row>, c1: Cond, c2: Cond, xs: seq<Tuple>)
    ensures Keep(db, And(c1, c2), xs) == Keep(db, c2, Keep(db, c1, xs))
  {
    if xs != [] {
      KeepAnd(db, c1, c2, xs[1..]);
      KeepCons(db, c2, xs[0], Keep(db, c1, xs[1..]));
    }
  }

  lemma {:induction false} KeepGuarded(scoped: set<Table>, db: seq<Row>, c: Cond, xs: seq<Tuple>, owner: TenantId,
                                       width: nat)
    requires WellTagged(scoped, db)
    requires forall i :: 0 <= i < |xs| ==> |xs[i]| == width
    ensures Keep(db, GuardCond(scoped, c, owner, width), xs) == Keep(Project(db, owner), c, xs)
    decreases c, 1, |xs|
  {
    if xs != [] {
      GuardedCond(scoped, db, c, xs[0], owner);
      KeepGuarded(scoped, db, c, xs[1..], owner, width);
    }
  }

  /** A guarded condition, sub-queries and all, says on the shared database what it says on the projection. */
  lemma {:induction false} GuardedCond(scoped: set<Table>, db: seq<Row>, c: Cond, x: Tuple, owner: TenantId)
    requires WellTagged(scoped, db)
    ensures Holds(db, GuardCond(scoped, c, owner, |x|), x) <==> Holds(Project(db, owner), c, x)
    decreases c, 0, 0
  {
    hide Eval, JoinAll, Keep, GuardFrom, Rows, Project;
    match c
    case Test(_) =>
    case Owned(_, _) =>
    case And(c1, c2) =>
      GuardedCond(scoped, db, c1, x, owner);
      GuardedCond(scoped, db, c2, x, owner);
    case Not(c1) => GuardedCond(scoped, db, c1, x, owner);
    case Exists(from, filter) =>
      var f := GuardFrom(scoped, from, owner, |x|);
      KeepAnd(db, Criterion(scoped, FirstTable(from), |x|, owner),
              GuardCond(scoped, filter, owner, |x| + Width(from)), Eval(db, f, x));
      GuardedFrom(scoped, db, from, x, owner);
      EvalShaped(Project(db, owner), from, x);
      KeepGuarded(scoped, db, filter, Eval(Project(db, owner), from, x), owner, |x| + Width(from));
  }

  /** The rewritten SELECT on the shared database is the SELECT on the tenant's projection. */
  lemma GuardedSelect(scoped: set<Table>, db: seq<Row>, f: From, where_: Cond, owner: TenantId)
    requires WellTagged(scoped, db)
    ensures Select(db, GuardFrom(scoped, f, owner, 0), GuardWhere(scoped, f, where_, owner, 0), []) ==
            Select(Project(db, owner), f, where_, [])
  {
    var xs := Eval(db, GuardFrom(scoped, f, owner, 0), []);
    KeepAnd(db, Criterion(scoped, FirstTable(f), 0, owner), GuardCond(scoped, where_, owner, Width(f)), xs);
    GuardedFrom(scoped, db, f, [], owner);
    EvalShaped(Project(db, owner), f, []);
    KeepGuarded(scoped, db, where_, Eval(Project(db, owner), f, []), owner, Width(f));
  }
}
