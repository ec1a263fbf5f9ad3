/**
 * Statements under a tenant context: what the two session hooks of
 * app/db/tenant_scope.py do to them, and the context variable of
 * app/core/tenant_context.py that nested scopes set and restore.
 */
module TenantScope {
  import opened Wrappers
  import opened TenantGuard

  /** The context variable: unset, one tenant, or the ALL_TENANTS bypass. */
  datatype Context = Nobody | Tenant(id: TenantId) | Everyone

  /** An update sets values and may name a new owner; an insert may name its owner. */
  datatype Stmt =
    | Query(from: From, filter: Cond)
    | Update(table: Table, filter: Cond, values: Row -> map<string, int>, owner: Option<TenantId>)
    | Delete(table: Table, filter: Cond)
    | Insert(table: Table, owner: Option<TenantId>, id: int, vals: map<string, int>)

  /**
   * A statement with the way it is executed: from the ORM, as a lazy load, with
   * the bypass option, or as Core SQL on a table, to which the criterion of the
   * query hook does not apply and whose new rows no flush stamps.
   */
  datatype Way = Orm | LazyLoad | Bypass | Core

  datatype Request = Request(stmt: Stmt, way: Way)

  datatype Result = Tuples(tuples: seq<Tuple>) | Count(rows: nat) | Inserted | Refused

  // ---- executing a statement ------------------------------------------------------

  /** Rows that are hit become `change` of themselves, or vanish. */
  function Amend(rows: seq<Row>, hit: Row -> bool, change: Row -> Option<Row>): seq<Row> {
    if rows == [] then []
    else if !hit(rows[0]) then [rows[0]] + Amend(rows[1..], hit, change)
    else match change(rows[0])
      case None => Amend(rows[1..], hit, change)
      case Some(r) => [r] + Amend(rows[1..], hit, change)
  }

  function Hits(rows: seq<Row>, hit: Row -> bool): nat {
    if rows == [] then 0 else Hits(rows[1..], hit) + if hit(rows[0]) then 1 else 0
  }

  function Matching(db: seq<Row>, t: Table, c: Cond): Row -> bool {
    (r: Row) => r.table == t && Holds(db, c, [Some(r)])
  }

  function Setting(scoped: set<Table>, t: Table, values: Row -> map<string, int>,
                   owner: Option<TenantId>): Row -> Option<Row> {
    (r: Row) => Some(r.(vals := values(r), tenant := if t in scoped && owner.Some? then owner else r.tenant))
  }

  function Gone(): Row -> Option<Row> {
    (r: Row) => None
  }

  /** The effect of a statement as it stands; `stamp` is the tenant for new rows without one. */
  function Exec(scoped: set<Table>, db: seq<Row>, s: Stmt, stamp: Option<TenantId>): (seq<Row>, Result) {
    match s
    case Query(f, c) => (db, Tuples(Select(db, f, c, [])))
    case Update(t, c, values, owner) =>
      (Amend(db, Matching(db, t, c), Setting(scoped, t, values, owner)), Count(Hits(db, Matching(db, t, c))))
    case Delete(t, c) => (Amend(db, Matching(db, t, c), Gone()), Count(Hits(db, Matching(db, t, c))))
    case Insert(t, owner, id, vals) =>
      if t !in scoped then (db + [Row(t, None, id, vals)], Inserted)
      else
        var tenant := if owner.Some? then owner else stamp;
        if tenant == None then (db, Refused) else (db + [Row(t, tenant, id, vals)], Inserted)
  }

  function GuardStmt(scoped: set<Table>, s: Stmt, owner: TenantId): Stmt {
    match s
    case Query(f, c) => Query(GuardFrom(scoped, f, owner, 0), GuardWhere(scoped, f, c, owner, 0))
    case Update(t, c, values, to) => Update(t, GuardWhere(scoped, Scan(t), c, owner, 0), values, to)
    case Delete(t, c) => Delete(t, GuardWhere(scoped, Scan(t), c, owner, 0))
    case Insert(_, _, _, _) => s
  }

  /** What is left of a request after the query hook; None when the hook raises. */
  function Admit(scoped: set<Table>, ctx: Context, q: Request): Option<Stmt> {
    if q.stmt.Insert? || q.way == LazyLoad || q.way == Bypass || ctx.Everyone? then Some(q.stmt)
    else if ctx.Nobody? then None
    else if q.way == Core then Some(q.stmt)
    else Some(GuardStmt(scoped, q.stmt, ctx.id))
  }

  /** The tenant a new row gets at the flush; Core inserts get none, and a scoped row needs one. */
  function StampOf(ctx: Context, way: Way): Option<TenantId> {
    if ctx.Tenant? && way != Core then Some(ctx.id) else None
  }

  /** One request on the shared database. */
  function Guarded(scoped: set<Table>, ctx: Context, db: seq<Row>, q: Request): (seq<Row>, Result) {
    match Admit(scoped, ctx, q)
    case None => (db, Refused)
    case Some(s) => Exec(scoped, db, s, StampOf(ctx, q.way))
  }

  // ---- what a statement does ----------------------------------------------------------

  /** Rows that are hit are replaced in their places. */
  lemma {:induction false} AmendReplaces(rows: seq<Row>, hit: Row -> bool, change: Row -> Option<Row>)
    requires forall r :: r in rows && hit(r) ==> change(r).Some?
    ensures |Amend(rows, hit, change)| == |rows|
    ensures forall i :: 0 <= i < |rows| ==>
              Amend(rows, hit, change)[i] == if hit(rows[i]) then change(rows[i]).value else rows[i]
  {
    if rows != [] {
      assert rows[0] in rows;
      AmendReplaces(rows[1..], hit, change);
    }
  }

  lemma {:induction false} AmendRemoves(rows: seq<Row>, hit: Row -> bool)
    ensures |Amend(rows, hit, Gone())| == |rows| - Hits(rows, hit)
    ensures forall r :: r in Amend(rows, hit, Gone()) <==> r in rows && !hit(r)
  {
    if rows != [] {
      AmendRemoves(rows[1..], hit);
      assert rows == [rows[0]] + rows[1..];
    }
  }

  /** The places of the rows a statement hits. */
  ghost function HitPlaces(db: seq<Row>, t: Table, c: Cond): set<int> {
    set i | 0 <= i < |db| && db[i].table == t && Holds(db, c, [Some(db[i])])
  }

  lemma {:induction false} HitsSnoc(rows: seq<Row>, r: Row, hit: Row -> bool)
    ensures Hits(rows + [r], hit) == Hits(rows, hit) + if hit(r) then 1 else 0
  {
    if rows == [] {
      assert (rows + [r])[1..] == [];
    } else {
      HitsSnoc(rows[1..], r, hit);
      assert (rows + [r])[1..] == rows[1..] + [r];
    }
  }

  lemma {:induction false} HitsArePlaces(rows: seq<Row>, hit: Row -> bool)
    ensures Hits(rows, hit) == |set i | 0 <= i < |rows| && hit(rows[i])|
    decreases |rows|
  {
    var places := set i | 0 <= i < |rows| && hit(rows[i]);
    if rows != [] {
      var front, last := rows[..|rows| - 1], rows[|rows| - 1];
      HitsArePlaces(front, hit);
      HitsSnoc(front, last, hit);
      assert rows == front + [last];
      var before := set i | 0 <= i < |front| && hit(front[i]);
      assert places == before + if hit(last) then {|front|} else {};
    }
  }

  /** An update sets exactly the rows that are hit, in their places, and counts them. */
  lemma UpdateMeans(scoped: set<Table>, db: seq<Row>, t: Table, c: Cond, values: Row -> map<string, int>,
                    to: Option<TenantId>, stamp: Option<TenantId>)
    ensures var (now, answer) := Exec(scoped, db, Update(t, c, values, to), stamp);
            var places := HitPlaces(db, t, c);
            && answer == Count(|places|) && |now| == |db|
            && forall i :: 0 <= i < |db| ==>
                 now[i] ==
                 if i in places
                 then Row(t, if t in scoped && to.Some? then to else db[i].tenant, db[i].id, values(db[i]))
                 else db[i]
  {
    AmendReplaces(db, Matching(db, t, c), Setting(scoped, t, values, to));
    HitsArePlaces(db, Matching(db, t, c));
    assert HitPlaces(db, t, c) == set i | 0 <= i < |db| && Matching(db, t, c)(db[i]);
  }

  /** A delete removes exactly the rows that are hit, and counts them. */
  lemma DeleteMeans(scoped: set<Table>, db: seq<Row>, t: Table, c: Cond, stamp: Option<TenantId>)
    ensures var (now, answer) := Exec(scoped, db, Delete(t, c), stamp);
            var places := HitPlaces(db, t, c);
            && answer == Count(|places|) && |now| == |db| - |places|
            && forall r :: r in now <==> r in db && !(r.table == t && Holds(db, c, [Some(r)]))
  {
    AmendRemoves(db, Matching(db, t, c));
    HitsArePlaces(db, Matching(db, t, c));
    assert HitPlaces(db, t, c) == set i | 0 <= i < |db| && Matching(db, t, c)(db[i]);
  }

  /** An insert appends the row, with the tenant named or else the stamp; a scoped row without either is refused. */
  lemma InsertMeans(scoped: set<Table>, db: seq<Row>, t: Table, to: Option<TenantId>, id: int,
                    vals: map<string, int>, stamp: Option<TenantId>)
    ensures var (now, answer) := Exec(scoped, db, Insert(t, to, id, vals), stamp);
            && (answer == Refused <==> t in scoped && to == None && stamp == None)
            && (answer == Refused ==> now == db)
            && (answer != Refused ==>
                  && answer == Inserted && |now| == |db| + 1 && now[..|db|] == db
                  && now[|db|].table == t && now[|db|].id == id && now[|db|].vals == vals
                  && now[|db|].tenant == if t !in scoped then None else if to.Some? then to else stamp)
  {
  }

  /** Which requests the hooks refuse, which they rewrite, and which they let through as they are. */
  lemma HooksMean(scoped: set<Table>, ctx: Context, q: Request)
    ensures var read := !q.stmt.Insert? && (q.way == Orm || q.way == Core);
            && (Admit(scoped, ctx, q) == None <==> read && ctx == Nobody)
            && (read && q.way == Orm && ctx.Tenant? ==>
                  Admit(scoped, ctx, q) == Some(GuardStmt(scoped, q.stmt, ctx.id)))
            && (!(read && q.way == Orm && ctx.Tenant?) && !(read && ctx == Nobody) ==>
                  Admit(scoped, ctx, q) == Some(q.stmt))
    ensures StampOf(ctx, q.way) == if q.way == Core || !ctx.Tenant? then None else Some(ctx.id)
  {
  }

  // ---- a statement under a tenant is the statement on its projection ------------------

  /** The statement does not hand a scoped row to another tenant by name. */
  predicate NamesNoOther(scoped: set<Table>, s: Stmt, owner: TenantId) {
    match s
    case Update(t, _, _, to) => t !in scoped || to == None || to == Some(owner)
    case Insert(t, to, _, _) => t !in scoped || to == None || to == Some(owner)
    case _ => true
  }

  /**
   * It goes through the ORM, or inserts in bulk past the flush and names the
   * tenant itself, as the broadcast snapshots do.
   */
  predicate Tame(scoped: set<Table>, q: Request, owner: TenantId) {
    && NamesNoOther(scoped, q.stmt, owner)
    && (q.way == Orm || (q.stmt.Insert? && (q.way != Core || q.stmt.table !in scoped || q.stmt.owner == Some(owner))))
  }

  lemma ForeignCons(r: Row, db: seq<Row>, owner: TenantId)
    ensures Foreign([r] + db, owner) == if Visible(r, owner) then Foreign(db, owner) else [r] + Foreign(db, owner)
  {
    assert ([r] + db)[1..] == db;
  }

  lemma AmendCons(r: Row, rows: seq<Row>, hit: Row -> bool, change: Row -> Option<Row>)
    ensures Amend([r] + rows, hit, change) ==
            if !hit(r) then [r] + Amend(rows, hit, change)
            else if change(r) == None then Amend(rows, hit, change)
            else [change(r).value] + Amend(rows, hit, change)
    ensures Hits([r] + rows, hit) == Hits(rows, hit) + if hit(r) then 1 else 0
  {
    assert ([r] + rows)[1..] == rows;
  }

  /** Amending the tenant's rows only is amending the projection. */
  lemma {:induction false} AmendProject(rows: seq<Row>, hit: Row -> bool, hitAlone: Row -> bool,
                                        change: Row -> Option<Row>, owner: TenantId)
    requires forall r :: r in rows ==> (hit(r) <==> Visible(r, owner) && hitAlone(r))
    requires forall r :: r in rows && hit(r) && change(r).Some? ==> Visible(change(r).value, owner)
    ensures Project(Amend(rows, hit, change), owner) == Amend(Project(rows, owner), hitAlone, change)
    ensures Foreign(Amend(rows, hit, change), owner) == Foreign(rows, owner)
    ensures Hits(rows, hit) == Hits(Project(rows, owner), hitAlone)
  {
    if rows != [] {
      var r, rest := rows[0], rows[1..];
      assert r in rows;
      AmendProject(rest, hit, hitAlone, change, owner);
      AmendCons(r, Project(rest, owner), hitAlone, change);
      if !hit(r) {
        ProjectCons(r, Amend(rest, hit, change), owner);
        ForeignCons(r, Amend(rest, hit, change), owner);
      } else if change(r).Some? {
        ProjectCons(change(r).value, Amend(rest, hit, change), owner);
        ForeignCons(change(r).value, Amend(rest, hit, change), owner);
      }
    }
  }

  lemma {:induction false} ProjectSnoc(db: seq<Row>, r: Row, owner: TenantId)
    ensures Project(db + [r], owner) == if Visible(r, owner) then Project(db, owner) + [r] else Project(db, owner)
    ensures Foreign(db + [r], owner) == if Visible(r, owner) then Foreign(db, owner) else Foreign(db, owner) + [r]
  {
    if db == [] {
      ProjectCons(r, [], owner);
      ForeignCons(r, [], owner);
    } else {
      ProjectSnoc(db[1..], r, owner);
      assert (db + [r])[1..] == db[1..] + [r];
    }
  }

  /** The guarded filter hits the tenant's rows that the plain filter hits on the projection. */
  lemma GuardedHits(scoped: set<Table>, db: seq<Row>, t: Table, c: Cond, owner: TenantId)
    requires WellTagged(scoped, db)
    ensures forall r :: r in db ==>
              (Matching(db, t, GuardWhere(scoped, Scan(t), c, owner, 0))(r) <==>
               Visible(r, owner) && Matching(Project(db, owner), t, c)(r))
  {
    hide Project;
    forall r | r in db
      ensures Matching(db, t, GuardWhere(scoped, Scan(t), c, owner, 0))(r) <==>
              Visible(r, owner) && Matching(Project(db, owner), t, c)(r)
    {
      var x: Tuple := [Some(r)];
      GuardedCond(scoped, db, c, x, owner);
      if r.table == t {
        assert Holds(db, Criterion(scoped, t, 0, owner), x) <==> Visible(r, owner);
      }
    }
  }

  lemma {:induction false} AmendTagged(scoped: set<Table>, rows: seq<Row>, hit: Row -> bool, change: Row -> Option<Row>)
    requires WellTagged(scoped, rows)
    requires forall r :: r in rows && hit(r) && change(r).Some? ==>
               change(r).value.table == r.table && (change(r).value.tenant.Some? <==> r.tenant.Some?)
    ensures WellTagged(scoped, Amend(rows, hit, change))
  {
    if rows != [] {
      assert rows[0] in rows;
      AmendTagged(scoped, rows[1..], hit, change);
    }
  }

  lemma ExecTagged(scoped: set<Table>, db: seq<Row>, s: Stmt, stamp: Option<TenantId>)
    requires WellTagged(scoped, db)
    ensures WellTagged(scoped, Exec(scoped, db, s, stamp).0)
  {
    match s
    case Update(t, c, values, owner) => AmendTagged(scoped, db, Matching(db, t, c), Setting(scoped, t, values, owner));
    case Delete(t, c) => AmendTagged(scoped, db, Matching(db, t, c), Gone());
    case _ =>
  }

  /**
   * One statement under a tenant's scope gives the answer it would give if the
   * tenant were alone, has the same effect on the tenant's rows, and leaves the
   * rows of all the others as they were.
   */
  lemma StatementIsolated(scoped: set<Table>, db: seq<Row>, q: Request, owner: TenantId)
    requires WellTagged(scoped, db) && Tame(scoped, q, owner)
    ensures var (shared, answer) := Guarded(scoped, Tenant(owner), db, q);
            var (alone, same) := Exec(scoped, Project(db, owner), q.stmt, Some(owner));
            answer == same && Project(shared, owner) == alone && Foreign(shared, owner) == Foreign(db, owner)
  {
    match q.stmt
    case Query(f, c) => GuardedSelect(scoped, db, f, c, owner);
    case Update(t, c, values, to) =>
      var g := GuardWhere(scoped, Scan(t), c, owner, 0);
      GuardedHits(scoped, db, t, c, owner);
      AmendProject(db, Matching(db, t, g), Matching(Project(db, owner), t, c), Setting(scoped, t, values, to), owner);
    case Delete(t, c) =>
      var g := GuardWhere(scoped, Scan(t), c, owner, 0);
      GuardedHits(scoped, db, t, c, owner);
      AmendProject(db, Matching(db, t, g), Matching(Project(db, owner), t, c), Gone(), owner);
    case Insert(t, to, id, vals) =>
      ProjectSnoc(db, Row(t, if t in scoped then Some(owner) else None, id, vals), owner);
  }

  /** A condition without sub-queries looks at its tuple only. */
  predicate Plain(c: Cond) {
    match c
    case Test(_) => true
    case Owned(_, _) => true
    case And(c1, c2) => Plain(c1) && Plain(c2)
    case Not(c1) => Plain(c1)
    case Exists(_, _) => false
  }

  lemma {:induction false} PlainHolds(db: seq<Row>, other: seq<Row>, c: Cond, x: Tuple)
    requires Plain(c)
    ensures Holds(db, c, x) <==> Holds(other, c, x)
    decreases c
  {
    match c
    case And(c1, c2) =>
      PlainHolds(db, other, c1, x);
      PlainHolds(db, other, c2, x);
    case Not(c1) => PlainHolds(db, other, c1, x);
    case _ =>
  }

  /**
   * A Core update or delete, which nothing rewrites, is isolated nevertheless when
   * its own condition picks rows of the tenant only: the refund's is such a one.
   */
  lemma OwnRowsOnlyIsolated(scoped: set<Table>, db: seq<Row>, s: Stmt, owner: TenantId, stamp: Option<TenantId>)
    requires s.Update? || s.Delete?
    requires Plain(s.filter) && NamesNoOther(scoped, s, owner)
    requires forall r :: r in db && Matching(db, s.table, s.filter)(r) ==> Visible(r, owner)
    ensures var (shared, answer) := Exec(scoped, db, s, stamp);
            var (alone, same) := Exec(scoped, Project(db, owner), s, stamp);
            answer == same && Project(shared, owner) == alone && Foreign(shared, owner) == Foreign(db, owner)
  {
    var hit, hitAlone := Matching(db, s.table, s.filter), Matching(Project(db, owner), s.table, s.filter);
    forall r | r in db ensures hit(r) <==> Visible(r, owner) && hitAlone(r) {
      PlainHolds(db, Project(db, owner), s.filter, [Some(r)]);
    }
    AmendProject(db, hit, hitAlone, if s.Update? then Setting(scoped, s.table, s.values, s.owner) else Gone(), owner);
  }

  // ---- exactly when a statement reaches another tenant ---------------------------------

  lemma {:induction false} AmendAway(rows: seq<Row>, hit: Row -> bool, change: Row -> Option<Row>, owner: TenantId)
    requires forall r :: r in rows && hit(r) ==>
              Visible(r, owner) && change(r).Some? && !Visible(change(r).value, owner)
    ensures |Foreign(Amend(rows, hit, change), owner)| == |Foreign(rows, owner)| + Hits(rows, hit)
  {
    if rows != [] {
      var r, rest := rows[0], rows[1..];
      assert r in rows;
      AmendAway(rest, hit, change, owner);
      if hit(r) {
        ForeignCons(change(r).value, Amend(rest, hit, change), owner);
      } else {
        ForeignCons(r, Amend(rest, hit, change), owner);
      }
    }
  }

  /** It names another tenant and has a row to give to it. */
  ghost predicate GivesAway(scoped: set<Table>, db: seq<Row>, s: Stmt, owner: TenantId) {
    && !NamesNoOther(scoped, s, owner)
    && (s.Update? ==> Hits(Project(db, owner), Matching(Project(db, owner), s.table, s.filter)) > 0)
  }

  lemma {:induction false} HitsSame(rows: seq<Row>, hit: Row -> bool, hitAlone: Row -> bool, owner: TenantId)
    requires forall r :: r in rows ==> (hit(r) <==> Visible(r, owner) && hitAlone(r))
    ensures Hits(rows, hit) == Hits(Project(rows, owner), hitAlone)
  {
    if rows != [] {
      assert rows[0] in rows;
      HitsSame(rows[1..], hit, hitAlone, owner);
      AmendCons(rows[0], Project(rows[1..], owner), hitAlone, Gone());
    }
  }

  /** Through the ORM, the other tenants' rows change if and only if the statement gives a row away by name. */
  lemma OrmReachesOthersIffGivesAway(scoped: set<Table>, db: seq<Row>, s: Stmt, owner: TenantId)
    requires WellTagged(scoped, db)
    ensures Foreign(Guarded(scoped, Tenant(owner), db, Request(s, Orm)).0, owner) != Foreign(db, owner) <==>
            GivesAway(scoped, db, s, owner)
  {
    if NamesNoOther(scoped, s, owner) {
      StatementIsolated(scoped, db, Request(s, Orm), owner);
    } else if s.Update? {
      var g := GuardWhere(scoped, Scan(s.table), s.filter, owner, 0);
      GuardedHits(scoped, db, s.table, s.filter, owner);
      HitsSame(db, Matching(db, s.table, g), Matching(Project(db, owner), s.table, s.filter), owner);
      AmendAway(db, Matching(db, s.table, g), Setting(scoped, s.table, s.values, s.owner), owner);
      if Hits(db, Matching(db, s.table, g)) == 0 {
        NoHits(db, Matching(db, s.table, g), Setting(scoped, s.table, s.values, s.owner));
      }
    } else {
      ProjectSnoc(db, Row(s.table, s.owner, s.id, s.vals), owner);
    }
  }

  // A statement that is not rewritten.

  predicate Gains(r: Row, hit: Row -> bool, change: Row -> Option<Row>, owner: TenantId) {
    hit(r) && Visible(r, owner) && change(r).Some? && !Visible(change(r).value, owner)
  }

  predicate Loses(r: Row, hit: Row -> bool, change: Row -> Option<Row>, owner: TenantId) {
    hit(r) && !Visible(r, owner) && (change(r) == None || Visible(change(r).value, owner))
  }

  function Gaining(hit: Row -> bool, change: Row -> Option<Row>, owner: TenantId): Row -> bool {
    (r: Row) => Gains(r, hit, change, owner)
  }

  function Losing(hit: Row -> bool, change: Row -> Option<Row>, owner: TenantId): Row -> bool {
    (r: Row) => Loses(r, hit, change, owner)
  }

  lemma {:induction false} AmendCounts(rows: seq<Row>, hit: Row -> bool, change: Row -> Option<Row>, owner: TenantId)
    ensures |Foreign(Amend(rows, hit, change), owner)| ==
            |Foreign(rows, owner)| + Hits(rows, Gaining(hit, change, owner)) - Hits(rows, Losing(hit, change, owner))
  {
    if rows != [] {
      var r, rest := rows[0], rows[1..];
      AmendCounts(rest, hit, change, owner);
      if !hit(r) {
        ForeignCons(r, Amend(rest, hit, change), owner);
      } else if change(r).Some? {
        ForeignCons(change(r).value, Amend(rest, hit, change), owner);
      }
    }
  }

  /** Some row of the others is hit and does not stay as it is. */
  ghost predicate ChangesForeign(rows: seq<Row>, hit: Row -> bool, change: Row -> Option<Row>, owner: TenantId) {
    exists r :: r in rows && hit(r) && !Visible(r, owner) && change(r) != Some(r)
  }

  lemma {:induction false} AmendInPlace(rows: seq<Row>, hit: Row -> bool, change: Row -> Option<Row>, owner: TenantId)
    requires forall r :: r in rows ==> !Gains(r, hit, change, owner) && !Loses(r, hit, change, owner)
    ensures |Foreign(Amend(rows, hit, change), owner)| == |Foreign(rows, owner)|
    ensures Foreign(Amend(rows, hit, change), owner) != Foreign(rows, owner) <==>
              ChangesForeign(rows, hit, change, owner)
  {
    if rows != [] {
      var r, rest := rows[0], rows[1..];
      assert r in rows;
      AmendInPlace(rest, hit, change, owner);
      var after := Amend(rest, hit, change);
      if !hit(r) {
        ForeignCons(r, after, owner);
      } else if change(r).Some? {
        ForeignCons(change(r).value, after, owner);
      }
      if !Visible(r, owner) {
        var s := if hit(r) then change(r).value else r;
        assert [s] + Foreign(after, owner) == [r] + Foreign(rest, owner) <==>
               s == r && Foreign(after, owner) == Foreign(rest, owner) by {
          var x, y := [s] + Foreign(after, owner), [r] + Foreign(rest, owner);
          assert x[0] == s && y[0] == r && x[1..] == Foreign(after, owner) && y[1..] == Foreign(rest, owner);
        }
      }
      assert rows == [r] + rest;
    }
  }

  lemma {:induction false} SomeHit(rows: seq<Row>, hit: Row -> bool)
    ensures Hits(rows, hit) > 0 <==> exists r :: r in rows && hit(r)
  {
    if rows != [] {
      SomeHit(rows[1..], hit);
      assert rows == [rows[0]] + rows[1..];
    }
  }

  /** All the rows a statement hits change alike: either none is lost to the owner's view, or none is gained. */
  lemma AmendReaches(rows: seq<Row>, hit: Row -> bool, change: Row -> Option<Row>, owner: TenantId)
    requires (forall r :: r in rows ==> !Gains(r, hit, change, owner))
             || (forall r :: r in rows ==> !Loses(r, hit, change, owner))
    ensures Foreign(Amend(rows, hit, change), owner) != Foreign(rows, owner) <==>
            (exists r :: r in rows && Gains(r, hit, change, owner)) || ChangesForeign(rows, hit, change, owner)
  {
    AmendCounts(rows, hit, change, owner);
    SomeHit(rows, Gaining(hit, change, owner));
    SomeHit(rows, Losing(hit, change, owner));
    if r :| r in rows && Gains(r, hit, change, owner) {
      assert Gaining(hit, change, owner)(r);
    } else if r :| r in rows && Loses(r, hit, change, owner) {
      assert Losing(hit, change, owner)(r);
      assert ChangesForeign(rows, hit, change, owner);
    } else {
      AmendInPlace(rows, hit, change, owner);
    }
  }

  /** It changes or deletes a row of another tenant, hands one over, or inserts one for another tenant. */
  ghost predicate Disturbs(scoped: set<Table>, db: seq<Row>, s: Stmt, owner: TenantId) {
    match s
    case Query(_, _) => false
    case Update(t, c, values, to) =>
      var hit, change := Matching(db, t, c), Setting(scoped, t, values, to);
      (exists r :: r in db && Gains(r, hit, change, owner)) || ChangesForeign(db, hit, change, owner)
    case Delete(t, c) => ChangesForeign(db, Matching(db, t, c), Gone(), owner)
    case Insert(_, _, _, _) => !NamesNoOther(scoped, s, owner)
  }

  lemma UnfilteredReachesOthersIff(scoped: set<Table>, db: seq<Row>, s: Stmt, owner: TenantId, stamp: Option<TenantId>)
    requires stamp == None || stamp == Some(owner)
    ensures Foreign(Exec(scoped, db, s, stamp).0, owner) != Foreign(db, owner) <==> Disturbs(scoped, db, s, owner)
  {
    match s
    case Query(_, _) =>
    case Update(t, c, values, to) =>
      var hit, change := Matching(db, t, c), Setting(scoped, t, values, to);
      if t in scoped && to == Some(owner) {
        assert forall r :: r in db ==> !Gains(r, hit, change, owner);
      } else {
        assert forall r :: r in db ==> !Loses(r, hit, change, owner);
      }
      AmendReaches(db, hit, change, owner);
    case Delete(t, c) =>
      assert forall r :: r in db ==> !Gains(r, Matching(db, t, c), Gone(), owner);
      AmendReaches(db, Matching(db, t, c), Gone(), owner);
    case Insert(t, to, id, vals) =>
      if t !in scoped {
        ProjectSnoc(db, Row(t, None, id, vals), owner);
      } else if to.Some? || stamp.Some? {
        ProjectSnoc(db, Row(t, if to.Some? then to else stamp, id, vals), owner);
      }
  }

  /**
   * Under a tenant's scope the rows of the others change exactly when: a statement
   * through the ORM gives a row away by name, or a statement that is not rewritten
   * (a lazy load, the bypass, or Core SQL) changes, deletes or hands over a row by itself.
   */
  lemma ReachesOthersIff(scoped: set<Table>, db: seq<Row>, q: Request, owner: TenantId)
    requires WellTagged(scoped, db)
    ensures Foreign(Guarded(scoped, Tenant(owner), db, q).0, owner) != Foreign(db, owner) <==>
            if q.way == Orm then GivesAway(scoped, db, q.stmt, owner) else Disturbs(scoped, db, q.stmt, owner)
  {
    if q.way == Orm {
      assert q == Request(q.stmt, Orm);
      OrmReachesOthersIffGivesAway(scoped, db, q.stmt, owner);
    } else {
      UnfilteredReachesOthersIff(scoped, db, q.stmt, owner, StampOf(Tenant(owner), q.way));
    }
  }

  /** A Core update that deactivates a user's rows, without a condition on the tenant. */
  function Everywhere(t: Table): Stmt {
    Update(t, ALWAYS, r => map["active" := 0], None)
  }

  /**
   * Such an update through the ORM leaves the others alone, and as Core SQL it does not,
   * although it gives nothing away.
   */
  lemma CoreUpdateReachesOthers()
    ensures var scoped: set<Table> := {"subscriptions"};
            var db := [Row("subscriptions", Some(2), 1, map["active" := 1])];
            && WellTagged(scoped, db) && !GivesAway(scoped, db, Everywhere("subscriptions"), 1)
            && Guarded(scoped, Tenant(1), db, Request(Everywhere("subscriptions"), Orm)).0 == db
            && Foreign(Guarded(scoped, Tenant(1), db, Request(Everywhere("subscriptions"), Core)).0, 1) !=
               Foreign(db, 1)
  {
    var scoped: set<Table> := {"subscriptions"};
    var row := Row("subscriptions", Some(2), 1, map["active" := 1]);
    var db := [row];
    var s := Everywhere("subscriptions");
    var x: Tuple := [Some(row)];
    assert row in db && Holds(db, ALWAYS, x);
    assert map["active" := 0]["active"] != map["active" := 1]["active"];
    assert Setting(scoped, "subscriptions", s.values, None)(row) != Some(row);
    UnfilteredReachesOthersIff(scoped, db, s, 1, None);
    assert !Holds(db, GuardWhere(scoped, Scan("subscriptions"), ALWAYS, 1, 0), x);
    assert db[1..] == [];
  }

  lemma {:induction false} NoHits(rows: seq<Row>, hit: Row -> bool, change: Row -> Option<Row>)
    requires Hits(rows, hit) == 0
    ensures Amend(rows, hit, change) == rows
  {
    if rows != [] {
      NoHits(rows[1..], hit, change);
    }
  }

  /**
   * Without a context every read and write is refused and changes nothing, with
   * exactly these exceptions: lazy loads, the explicit bypass, rows of global
   * tables, and new rows that name their tenant.
   */
  lemma RefusedWithoutContext(scoped: set<Table>, db: seq<Row>, q: Request)
    ensures Guarded(scoped, Nobody, db, q) == (db, Refused) <==>
            if q.stmt.Insert? then q.stmt.table in scoped && q.stmt.owner == None else q.way == Orm || q.way == Core
  {
  }

  // ---- whole programs --------------------------------------------------------------------

  /** A program chooses its next request from the answers so far, or stops. */
  type Program = seq<Result> -> Option<Request>

  function RunShared(scoped: set<Table>, db: seq<Row>, p: Program, n: nat, owner: TenantId): (seq<Row>, seq<Result>) {
    if n == 0 then (db, [])
    else
      var (now, answers) := RunShared(scoped, db, p, n - 1, owner);
      match p(answers)
      case None => (now, answers)
      case Some(q) =>
        var (next, answer) := Guarded(scoped, Tenant(owner), now, q);
        (next, answers + [answer])
  }

  function RunAlone(scoped: set<Table>, db: seq<Row>, p: Program, n: nat, owner: TenantId): (seq<Row>, seq<Result>) {
    if n == 0 then (db, [])
    else
      var (now, answers) := RunAlone(scoped, db, p, n - 1, owner);
      match p(answers)
      case None => (now, answers)
      case Some(q) =>
        var (next, answer) := Exec(scoped, now, q.stmt, Some(owner));
        (next, answers + [answer])
  }

  /** A whole program cannot tell the shared database from one of its own. */
  lemma {:induction false} ProgramIsolated(scoped: set<Table>, db: seq<Row>, p: Program, n: nat, owner: TenantId)
    requires WellTagged(scoped, db)
    requires forall answers :: p(answers).Some? ==> Tame(scoped, p(answers).value, owner)
    ensures RunShared(scoped, db, p, n, owner).1 == RunAlone(scoped, Project(db, owner), p, n, owner).1
    ensures Project(RunShared(scoped, db, p, n, owner).0, owner) == RunAlone(scoped, Project(db, owner), p, n, owner).0
    ensures Foreign(RunShared(scoped, db, p, n, owner).0, owner) == Foreign(db, owner)
    ensures WellTagged(scoped, RunShared(scoped, db, p, n, owner).0)
  {
    if n > 0 {
      hide Guarded, Exec, WellTagged, Tame;
      ProgramIsolated(scoped, db, p, n - 1, owner);
      var (now, answers) := RunShared(scoped, db, p, n - 1, owner);
      if p(answers).Some? {
        StatementIsolated(scoped, now, p(answers).value, owner);
        GuardedTagged(scoped, Tenant(owner), now, p(answers).value);
      }
    }
  }

  lemma GuardedTagged(scoped: set<Table>, ctx: Context, db: seq<Row>, q: Request)
    requires WellTagged(scoped, db)
    ensures WellTagged(scoped, Guarded(scoped, ctx, db, q).0)
  {
    hide WellTagged, Exec;
    var s := Admit(scoped, ctx, q);
    if s.Some? {
      ExecTagged(scoped, db, s.value, StampOf(ctx, q.way));
    }
  }

  // ---- nested scopes -----------------------------------------------------------------------

  /** Code as the context managers structure it. */
  datatype Block = Do(request: Request) | Within(scope: Context, body: seq<Block>)

  datatype Item = Item(ctx: Context, request: Request)

  /** Each request with the context of the innermost block around it, in order. */
  function Flat(ctx: Context, bs: seq<Block>): seq<Item>
    decreases bs
  {
    if bs == [] then []
    else (match bs[0]
          case Do(q) => [Item(ctx, q)]
          case Within(scope, body) => Flat(scope, body)) + Flat(ctx, bs[1..])
  }

  /** The requests one after the other, up to and including the first that is refused. */
  function RunItems(scoped: set<Table>, db: seq<Row>, items: seq<Item>): (seq<Row>, bool)
    decreases |items|
  {
    if items == [] then (db, true)
    else
      var (next, answer) := Guarded(scoped, items[0].ctx, db, items[0].request);
      if answer == Refused then (next, false) else RunItems(scoped, next, items[1..])
  }

  lemma {:induction false} RunItemsConcat(scoped: set<Table>, db: seq<Row>, xs: seq<Item>, ys: seq<Item>)
    ensures RunItems(scoped, db, xs + ys) ==
            var (mid, ok) := RunItems(scoped, db, xs);
            if ok then RunItems(scoped, mid, ys) else (mid, false)
    decreases |xs|
  {
    hide Guarded;
    if xs == [] {
      assert xs + ys == ys;
    } else {
      var (next, answer) := Guarded(scoped, xs[0].ctx, db, xs[0].request);
      assert (xs + ys)[1..] == xs[1..] + ys;
      if answer != Refused {
        RunItemsConcat(scoped, next, xs[1..], ys);
      }
    }
  }

  /** What one tenant owns. */
  function Own(db: seq<Row>, t: TenantId): seq<Row> {
    if db == [] then []
    else if db[0].tenant == Some(t) then [db[0]] + Own(db[1..], t)
    else Own(db[1..], t)
  }

  lemma {:induction false} OwnIsForeign(db: seq<Row>, t: TenantId, u: TenantId)
    requires t != u
    ensures Own(Foreign(db, u), t) == Own(db, t)
  {
    if db != [] {
      OwnIsForeign(db[1..], t, u);
      assert ([db[0]] + Foreign(db[1..], u))[1..] == Foreign(db[1..], u);
    }
  }

  /** Whatever other tenants' code does under its own scopes, a tenant's rows stay as they are. */
  lemma {:induction false} OthersCannotTouch(scoped: set<Table>, db: seq<Row>, items: seq<Item>, t: TenantId)
    requires WellTagged(scoped, db)
    requires forall i :: i in items ==>
               && !i.ctx.Everyone? && i.ctx != Tenant(t)
               && (if i.ctx.Tenant? then Tame(scoped, i.request, i.ctx.id)
                   else i.request.stmt.Insert? || i.request.way == Orm)
               && (i.request.stmt.Insert? ==> i.request.stmt.owner != Some(t))
    ensures Own(RunItems(scoped, db, items).0, t) == Own(db, t)
    decreases |items|
  {
    if items != [] {
      hide WellTagged, Project, Tame;
      var i := items[0];
      assert i in items;
      var (next, answer) := Guarded(scoped, i.ctx, db, i.request);
      GuardedTagged(scoped, i.ctx, db, i.request);
      StepKeepsOwn(scoped, db, i, t);
      if answer != Refused {
        OthersCannotTouch(scoped, next, items[1..], t);
      }
    }
  }

  lemma StepKeepsOwn(scoped: set<Table>, db: seq<Row>, i: Item, t: TenantId)
    requires WellTagged(scoped, db)
    requires !i.ctx.Everyone? && i.ctx != Tenant(t)
    requires if i.ctx.Tenant? then Tame(scoped, i.request, i.ctx.id) else i.request.stmt.Insert? || i.request.way == Orm
    requires i.request.stmt.Insert? ==> i.request.stmt.owner != Some(t)
    ensures Own(Guarded(scoped, i.ctx, db, i.request).0, t) == Own(db, t)
  {
    var next := Guarded(scoped, i.ctx, db, i.request).0;
    if i.ctx.Tenant? {
      hide Guarded;
      StatementIsolated(scoped, db, i.request, i.ctx.id);
      OwnIsForeign(db, t, i.ctx.id);
      OwnIsForeign(next, t, i.ctx.id);
    } else if next != db {
      OwnSnoc(db, next[|db|], t);
    }
  }

  lemma {:induction false} OwnSnoc(db: seq<Row>, r: Row, t: TenantId)
    ensures Own(db + [r], t) == if r.tenant == Some(t) then Own(db, t) + [r] else Own(db, t)
  {
    if db == [] {
      assert (db + [r])[1..] == [];
    } else {
      OwnSnoc(db[1..], r, t);
      assert (db + [r])[1..] == db[1..] + [r];
    }
  }

  // ---- the hooks and the context variable -----------------------------------------------------

  /** An object that the session is about to insert. */
  class Entity {
    const table: Table
    var tenant: Option<TenantId>

    constructor (table: Table, tenant: Option<TenantId>)
      ensures this.table == table && this.tenant == tenant
    {
      this.table := table;
      this.tenant := tenant;
    }
  }

  class Session {
    const scoped: set<Table>
    var current: Context
    var db: seq<Row>

    constructor (scoped: set<Table>, db: seq<Row>)
      ensures this.scoped == scoped && this.db == db && current == Nobody
    {
      this.scoped := scoped;
      this.db := db;
      this.current := Nobody;
    }

    /** The query hook: rewrites the statement, or raises. */
    method ApplyTenantFilter(q: Request) returns (raised: bool, statement: Stmt)
      ensures raised <==> Admit(scoped, current, q) == None
      ensures !raised ==> Admit(scoped, current, q) == Some(statement)
    {
      raised := false;
      statement := q.stmt;
      if q.way == LazyLoad {
        return;
      }
      if !(statement.Query? || statement.Update? || statement.Delete?) {
        return;
      }
      if q.way == Bypass {
        return;
      }
      var ctx := current;
      if ctx == Everyone {
        return;
      }
      if !ctx.Tenant? {
        raised := true;
        return;
      }
      if q.way == Orm {
        statement := GuardStmt(scoped, statement, ctx.id);
      }
    }

    /**
     * The flush hook: it raises exactly when a new scoped row has no tenant and
     * the context cannot supply one, and then no row was stamped; otherwise every
     * scoped row has a tenant and only the missing ones were filled in.
     */
    method StampTenant(fresh_: seq<Entity>) returns (raised: bool)
      modifies fresh_
      ensures raised <==> !current.Tenant? && exists o :: o in fresh_ && o.table in scoped && old(o.tenant) == None
      ensures raised ==> forall o :: o in fresh_ ==> o.tenant == old(o.tenant)
      ensures !raised ==> forall o :: o in fresh_ ==>
                o.tenant == if o.table in scoped && old(o.tenant) == None then Some(current.id) else old(o.tenant)
    {
      var tenantId: Option<TenantId> := None;
      var i := 0;
      while i < |fresh_|
        invariant 0 <= i <= |fresh_|
        invariant tenantId.Some? ==> current == Tenant(tenantId.value)
        invariant !current.Tenant? ==>
                  forall k :: 0 <= k < i ==> !(fresh_[k].table in scoped && old(fresh_[k].tenant) == None)
        invariant !current.Tenant? ==> forall o :: o in fresh_ ==> o.tenant == old(o.tenant)
        invariant current.Tenant? ==> forall k :: 0 <= k < i ==>
                    fresh_[k].tenant == if fresh_[k].table in scoped && old(fresh_[k].tenant) == None
                        then Some(current.id) else old(fresh_[k].tenant)
        invariant forall o :: o in fresh_ ==>
                    o.tenant == old(o.tenant) ||
                    (current.Tenant? && o.tenant == Some(current.id) && o.table in scoped && old(o.tenant) == None)
      {
        var obj := fresh_[i];
        if obj.table in scoped && obj.tenant == None {
          if tenantId == None {
            if !current.Tenant? {
              return true;
            }
            tenantId := Some(current.id);
          }
          obj.tenant := tenantId;
        }
        i := i + 1;
      }
      raised := false;
    }

    /**
     * Runs code with nested scopes: each block sets the context variable, and
     * resets it on the way out whether or not its body raised. The requests run
     * as a flat list, each under its innermost scope, up to the first refusal.
     */
    method Run(bs: seq<Block>) returns (ok: bool)
      modifies this
      ensures current == old(current)
      ensures (db, ok) == RunItems(scoped, old(db), Flat(old(current), bs))
      decreases bs
    {
      hide Guarded;
      if bs == [] {
        return true;
      }
      match bs[0] {
        case Do(q) =>
          var (next, answer) := Guarded(scoped, current, db, q);
          RunItemsConcat(scoped, db, [Item(current, q)], Flat(current, bs[1..]));
          db := next;
          ok := answer != Refused;
        case Within(scope, body) =>
          RunItemsConcat(scoped, db, Flat(scope, body), Flat(current, bs[1..]));
          var token := current;
          current := scope;
          ok := Run(body);
          current := token;
      }
      if ok {
        ok := Run(bs[1..]);
      }
    }
  }
}
