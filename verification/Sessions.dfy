/**
 * A database session: the rows the others have committed, this session's
 * uncommitted writes and row locks, and the scheduler's choices. Every await of
 * a service is a call of `Pause`, at which other sessions commit transactions
 * that our locks do not hold back, and at which the statement may fail.
 */
module Sessions {
  import opened Wrappers
  import opened Plans
  import opened MoneyState
  import opened MoneyLaws
  import opened MoneyRuns

  /** Uncommitted writes; a service's transaction writes at most one row of each table. */
  datatype Tx = Tx(
    balance: Option<(UserId, int)>,
    entry: Option<Entry>,
    payment: Option<(PaymentId, Payment)>,
    newPayment: Option<Payment>,
    plan: Option<(UserId, Hold)>,
    retire: Option<UserId>,
    sub: Option<Sub>,
    media: Option<((MediaId, UserId), int)>,
    tenant: Option<(BotId, Tenant)>,
    newTenant: Option<(BotId, Tenant)>,
    invoice: Option<Invoice>,
    lockedPayments: set<PaymentId>,
    lockedUsers: set<UserId>)

  const IDLE := Tx(None, None, None, None, None, None, None, None, None, None, None, {}, {})

  function Put<K, V>(m: map<K, V>, w: Option<(K, V)>): map<K, V> {
    match w
    case None => m
    case Some((k, v)) => m[k := v]
  }

  function Append<T>(s: seq<T>, w: Option<T>): seq<T> {
    match w
    case None => s
    case Some(x) => s + [x]
  }

  /** The tables once the writes are committed; a new payment takes the next id. */
  function Written(db: Db, w: Tx): Db {
    var payments := Put(db.payments, w.payment);
    var subs := if w.retire.Some? then Retire(db.subs, {w.retire.value}) else db.subs;
    Db(Put(db.balance, w.balance),
       Put(db.plan, w.plan),
       Append(db.ledger, w.entry),
       if w.newPayment.Some? then payments[db.nextPayment := w.newPayment.value] else payments,
       if w.newPayment.Some? then db.nextPayment + 1 else db.nextPayment,
       Append(subs, w.sub),
       Put(db.media, w.media),
       Put(Put(db.tenants, w.tenant), w.newTenant),
       Append(db.invoices, w.invoice))
  }

  /** A unique constraint stands against the commit. */
  predicate Violates(db: Db, w: Tx) {
    || (w.newPayment.Some? && w.newPayment.value.via == Stars && w.newPayment.value.providerRef.Some?
        && ChargeSeen(db.payments, w.newPayment.value.providerRef.value))
    || (w.media.Some? && w.media.value.0 in db.media)
    || (w.newTenant.Some? && w.newTenant.value.0 in db.tenants)
    || (w.invoice.Some? && InvoiceClash(db.invoices, w.invoice.value.source, w.invoice.value.number))
  }

  // ---- row locks ----------------------------------------------------------------

  /** The payment rows a transaction locks or updates. */
  function PaymentRows(a: Action): set<PaymentId> {
    match a
    case Approve(id) => {id}
    case Reject(id) => {id}
    case Verify(id, _, _) => {id}
    case Expire(id) => {id}
    case RefundPayment(id, _) => {id}
    case _ => {}
  }

  /** The user rows a transaction locks or updates. */
  function UserRows(db: Db, a: Action): set<UserId> {
    match a
    case Approve(id) => if id in db.payments then {db.payments[id].user} else {}
    case Verify(id, _, _) => if id in db.payments then {db.payments[id].user} else {}
    case RefundPayment(id, _) => if id in db.payments then {db.payments[id].user} else {}
    case StarsCharge(u, _, _, _) => {u}
    case BuyPlan(u, _, _, _, _) => {u}
    case BuyMedia(_, u, _) => {u}
    case BuyBot(_, owner, _, _) => {owner}
    case RenewBot(_, owner, _, _) => {owner}
    case SweepPlans(users) => users
    case _ => {}
  }

  /** The transaction needs a row this session has locked, so it waits. */
  predicate Blocked(db: Db, a: Action, w: Tx) {
    PaymentRows(a) * w.lockedPayments != {} || UserRows(db, a) * w.lockedUsers != {}
  }

  // ---- what others can do between two statements -----------------------------------

  /** `d1` is `d0` after any number of transactions. */
  ghost predicate Later(d0: Db, d1: Db) {
    && (forall u :: u in d0.balance ==> u in d1.balance)
    && (forall id :: id in d0.payments ==> id in d1.payments && SameOrder(d0.payments[id], d1.payments[id]))
    && (forall k :: k in d0.media ==> k in d1.media)
    && (forall b :: b in d0.tenants ==>
          b in d1.tenants && d1.tenants[b].owner == d0.tenants[b].owner && d1.tenants[b].paid == d0.tenants[b].paid)
    && d0.invoices <= d1.invoices && d0.nextPayment <= d1.nextPayment
    && (forall source, amount :: Backed(d0, source, amount) ==> Backed(d1, source, amount))
  }

  /** The rows this session has locked are as they were. */
  ghost predicate Guarded(d0: Db, d1: Db, w: Tx) {
    && (forall id :: id in w.lockedPayments && id in d0.payments ==>
        id in d1.payments && d1.payments[id] == d0.payments[id])
    && (forall u :: u in w.lockedUsers && u in d0.balance ==> u in d1.balance && d1.balance[u] == d0.balance[u])
    && (forall u :: u in w.lockedUsers && u in d0.plan ==> u in d1.plan && d1.plan[u] == d0.plan[u])
  }

  lemma StepPaymentRows(db: Db, a: Action)
    requires Sequenced(db)
    ensures forall id :: id in db.payments && id !in PaymentRows(a) ==>
              id in Step(db, a).0.payments && Step(db, a).0.payments[id] == db.payments[id]
  {
    hide Retire, SweepUsers, InvoiceClash, ChargeSeen, Mismatch;
  }

  /** A user that no row lock of the transaction is about keeps balance and plan. */
  ghost predicate Spared(db: Db, after: Db, a: Action)
    requires Sequenced(db)
  {
    forall u :: u in db.balance && u !in UserRows(db, a) ==>
      && u in after.balance && after.balance[u] == db.balance[u]
      && u in after.plan && after.plan[u] == db.plan[u]
  }

  lemma PaymentsSpare(db: Db, a: Action)
    requires Sequenced(db)
    requires a.Create? || a.Approve? || a.Reject? || a.Verify? || a.Expire? || a.RefundPayment? || a.StarsCharge?
    ensures Spared(db, Step(db, a).0, a)
  {
    hide Retire, InvoiceClash, ChargeSeen, Mismatch, BuyPlanTx, BuyMediaTx, BuyBotTx, RenewBotTx, InvoiceTx;
  }

  lemma SalesSpare(db: Db, a: Action)
    requires Sequenced(db)
    requires a.Register? || a.BuyPlan? || a.BuyMedia? || a.BuyBot? || a.RenewBot? || a.SweepPlans? || a.RecordInvoice?
    ensures Spared(db, Step(db, a).0, a)
  {
    hide Retire, InvoiceClash, CreateTx, ApproveTx, VerifyTx, RejectTx, ExpireTx, RefundTx, StarsTx;
  }

  lemma StepUserRows(db: Db, a: Action)
    requires Sequenced(db)
    ensures Spared(db, Step(db, a).0, a)
  {
    hide Step, Spared, Sequenced;
    if a.Create? || a.Approve? || a.Reject? || a.Verify? || a.Expire? || a.RefundPayment? || a.StarsCharge? {
      PaymentsSpare(db, a);
    } else {
      SalesSpare(db, a);
    }
  }

  lemma StepGuarded(db: Db, a: Action, w: Tx)
    requires Sequenced(db) && !Blocked(db, a, w)
    ensures Guarded(db, Step(db, a).0, w)
  {
    StepPaymentRows(db, a);
    StepUserRows(db, a);
    forall id | id in w.lockedPayments ensures id !in PaymentRows(a) {
      assert id in PaymentRows(a) ==> id in PaymentRows(a) * w.lockedPayments;
    }
    forall u | u in w.lockedUsers ensures u !in UserRows(db, a) {
      assert u in UserRows(db, a) ==> u in UserRows(db, a) * w.lockedUsers;
    }
  }

  lemma FitsLater(db: Db, after: Db, posted: Option<Entry>)
    requires Fits(db, after, posted)
    ensures Later(db, after)
  {
    forall source, amount | Backed(db, source, amount) ensures Backed(after, source, amount) {
      BackedKept(db, after, posted, source, amount);
    }
    forall m: MediaId, u: UserId | (m, u) in db.media ensures (m, u) in after.media {
      assert Share(posted, OfMedia(m, u)) == [];
    }
    forall k | k in db.media ensures k in after.media {
      assert (k.0, k.1) in db.media;
    }
  }

  lemma StepLater(db: Db, a: Action)
    requires Sequenced(db)
    ensures Later(db, Step(db, a).0)
  {
    StepFits(db, a);
    FitsLater(db, Step(db, a).0, Posted(db, Step(db, a).0));
  }

  lemma LaterTrans(d0: Db, d1: Db, d2: Db)
    requires Later(d0, d1) && Later(d1, d2)
    ensures Later(d0, d2)
  {
  }

  // ---- the session ------------------------------------------------------------------

  /** A committed transaction, by this session or by another, with its report. */
  datatype Logged = Logged(mine: bool, act: Action, out: Outcome)

  /** What the scheduler does at one await. */
  datatype Turn = Turn(others: seq<Action>, fault: bool)

  datatype Own = Own(act: Action, out: Outcome)

  function Acts(log: seq<Logged>): seq<Action> {
    seq(|log|, i requires 0 <= i < |log| => log[i].act)
  }

  function Mine(log: seq<Logged>): seq<Own> {
    if log == [] then []
    else
      var last := log[|log| - 1];
      Mine(log[..|log| - 1]) + if last.mine then [Own(last.act, last.out)] else []
  }

  /** The report of each commit is the one its transaction gives on the state it met. */
  ghost predicate Faithful(log: seq<Logged>) {
    forall i :: 0 <= i < |log| ==> log[i].out == Step(Replay(EMPTY, Acts(log[..i])), log[i].act).1
  }

  lemma LogSnoc(log: seq<Logged>, c: Logged)
    requires Legal(EMPTY, Acts(log)) && Admissible(Replay(EMPTY, Acts(log)), c.act)
    ensures Legal(EMPTY, Acts(log + [c]))
    ensures Replay(EMPTY, Acts(log + [c])) == Step(Replay(EMPTY, Acts(log)), c.act).0
    ensures Mine(log + [c]) == Mine(log) + if c.mine then [Own(c.act, c.out)] else []
  {
    assert Acts(log + [c]) == Acts(log) + [c.act];
    ReplaySnoc(EMPTY, Acts(log), c.act);
    assert (log + [c])[..|log|] == log;
  }

  lemma FaithfulSnoc(log: seq<Logged>, c: Logged)
    requires Faithful(log) && c.out == Step(Replay(EMPTY, Acts(log)), c.act).1
    ensures Faithful(log + [c])
  {
    var more := log + [c];
    forall i | 0 <= i < |more| ensures more[i].out == Step(Replay(EMPTY, Acts(more[..i])), more[i].act).1 {
      if i < |log| {
        assert more[..i] == log[..i];
      } else {
        assert more[..i] == log;
      }
    }
  }

  /** The tables are the replay of everything committed so far. */
  ghost predicate Consistent(db: Db, log: seq<Logged>) {
    && Legal(EMPTY, Acts(log))
    && Faithful(log)
    && db == Replay(EMPTY, Acts(log))
  }

  /** Between two states only other sessions committed, and none of our locked rows changed. */
  ghost predicate Elapsed(d0: Db, l0: seq<Logged>, d1: Db, l1: seq<Logged>, w: Tx) {
    && Later(d0, d1) && Guarded(d0, d1, w)
    && l0 <= l1 && Mine(l1) == Mine(l0)
  }

  lemma ElapsedSame(d: Db, l: seq<Logged>, w: Tx)
    ensures Elapsed(d, l, d, l, w)
  {
  }

  lemma ElapsedTrans(d0: Db, l0: seq<Logged>, d1: Db, l1: seq<Logged>, d2: Db, l2: seq<Logged>, w: Tx)
    requires Elapsed(d0, l0, d1, l1, w) && Elapsed(d1, l1, d2, l2, w)
    ensures Elapsed(d0, l0, d2, l2, w)
  {
    LaterTrans(d0, d1, d2);
  }

  lemma ConsistentInvariant(db: Db, log: seq<Logged>)
    requires Consistent(db, log)
    ensures MoneyInv(db)
  {
    ReachableInvariant(Acts(log));
  }

  // ---- the laws of whole runs, for interleaved sessions -----------------------------

  /** What all the sessions reported, in the order of their commits. */
  function Reports(log: seq<Logged>): seq<Outcome> {
    seq(|log|, i requires 0 <= i < |log| => log[i].out)
  }

  lemma NoReports()
    ensures Acts([]) == [] && Reports([]) == [] && Outcomes(EMPTY, []) == []
  {
  }

  lemma ReportsSnoc(front: seq<Logged>, last: Logged)
    ensures Reports(front + [last]) == Reports(front) + [last.out]
    ensures Acts(front + [last]) == Acts(front) + [last.act]
  {
  }

  lemma FaithfulFront(front: seq<Logged>, last: Logged)
    requires Faithful(front + [last])
    ensures Faithful(front) && last.out == Step(Replay(EMPTY, Acts(front)), last.act).1
  {
    hide Step, Replay, Acts;
    var log := front + [last];
    assert log[..|front|] == front && log[|front|] == last;
    forall i | 0 <= i < |front| ensures front[i].out == Step(Replay(EMPTY, Acts(front[..i])), front[i].act).1 {
      assert front[..i] == log[..i] && log[i] == front[i];
    }
  }

  lemma {:induction false} ReportsAreOutcomes(log: seq<Logged>)
    requires Faithful(log)
    ensures Outcomes(EMPTY, Acts(log)) == Reports(log)
  {
    hide Step, Replay, Acts, Reports, Faithful, Outcomes, Legal, Admissible;
    if log == [] {
      NoReports();
    } else {
      var front, last := log[..|log| - 1], log[|log| - 1];
      assert log == front + [last];
      FaithfulFront(front, last);
      ReportsAreOutcomes(front);
      ReportsSnoc(front, last);
      ReplaySnoc(EMPTY, Acts(front), last.act);
    }
  }

  /**
   * However sessions are interleaved and wherever they fail, their reports and
   * the tables obey the laws: each payment is settled once more than refunded
   * exactly while it is approved, no money appears or disappears, charges match
   * grants, and invoices are numbered without gaps.
   */
  lemma InterleavingsObeyTheLaws(db: Db, log: seq<Logged>)
    requires Consistent(db, log)
    ensures forall id :: Settles(Reports(log), id) - Refunds(Reports(log), id) == IsApproved(db, id)
    ensures SumMap(db.balance) == InflowSum(Reports(log)) - Granted(db) - RenewalSum(Reports(log))
    ensures MoneyInv(db) && ChargesMatchGrants(db)
    ensures forall i :: 0 <= i < |db.invoices| ==> db.invoices[i].number == i + 1
  {
    hide Step, Legal, Faithful, Settles, Refunds, Outcomes, Replay, MoneyInv, ChargesMatchGrants, IsApproved,
        InflowSum, RenewalSum, Granted, SumMap;
    var acts := Acts(log);
    ReportsAreOutcomes(log);
    forall id ensures Settles(Reports(log), id) - Refunds(Reports(log), id) == IsApproved(db, id) {
      SettlementsMinusRefunds(acts, id);
    }
    Conservation(acts);
    ReachableInvariant(acts);
    ChargeIffGrant(acts);
    InvoicesAreNumbered(acts);
  }

  lemma OneMore(db: Db, log: seq<Logged>, c: Logged, after: Db)
    requires Consistent(db, log) && Admissible(db, c.act) && Step(db, c.act) == (after, c.out)
    ensures Consistent(after, log + [c])
    ensures Mine(log + [c]) == Mine(log) + if c.mine then [Own(c.act, c.out)] else []
  {
    LogSnoc(log, c);
    FaithfulSnoc(log, c);
  }

  lemma OneMoreByOthers(db: Db, log: seq<Logged>, c: Logged, after: Db, w: Tx)
    requires Consistent(db, log) && Admissible(db, c.act) && Step(db, c.act) == (after, c.out)
    requires !c.mine && !Blocked(db, c.act, w)
    ensures Consistent(after, log + [c]) && Elapsed(db, log, after, log + [c], w)
  {
    ConsistentInvariant(db, log);
    OneMore(db, log, c, after);
    StepGuarded(db, c.act, w);
    StepLater(db, c.act);
  }

  lemma LockedPayment(d0: Db, d1: Db, w: Tx, id: PaymentId)
    requires Guarded(d0, d1, w) && id in w.lockedPayments && id in d0.payments
    ensures id in d1.payments && d1.payments[id] == d0.payments[id]
  {
  }

  lemma LockedUser(d0: Db, d1: Db, w: Tx, u: UserId)
    requires Guarded(d0, d1, w) && u in w.lockedUsers && u in d0.balance
    ensures u in d1.balance && d1.balance[u] == d0.balance[u]
    ensures u in d0.plan ==> u in d1.plan && d1.plan[u] == d0.plan[u]
  {
  }

  /** The user of a payment exists and has no debt. */
  lemma PaymentOwner(db: Db, log: seq<Logged>, id: PaymentId)
    requires Consistent(db, log) && id in db.payments
    ensures db.payments[id].user in db.balance && 0 <= db.balance[db.payments[id].user]
  {
    ConsistentInvariant(db, log);
  }

  lemma LaterFrom(d0: Db, l0: seq<Logged>, d1: Db, l1: seq<Logged>, w: Tx)
    requires Elapsed(d0, l0, d1, l1, w)
    ensures Later(d0, d1) && Mine(l1) == Mine(l0)
  {
  }

  lemma ConsistentLater(db: Db, a: Action, after: Db)
    requires MoneyInv(db) && after == Step(db, a).0
    ensures Later(db, after)
  {
    StepLater(db, a);
  }

  lemma LaterOrder(d0: Db, d1: Db, id: PaymentId)
    requires Later(d0, d1) && id in d0.payments
    ensures id in d1.payments && SameOrder(d0.payments[id], d1.payments[id])
  {
  }

  class Session {
    var db: Db
    var work: Tx
    var turns: seq<Turn>
    ghost var log: seq<Logged>

    ghost predicate Valid()
      reads this
    {
      Consistent(db, log)
    }

    /** The transactions this session has committed, with their reports. */
    ghost function Done(): seq<Own>
      reads this`log
    {
      Mine(log)
    }

    constructor (turns: seq<Turn>)
      ensures Valid() && work == IDLE && db == EMPTY && log == [] && this.turns == turns
    {
      db, work, log, this.turns := EMPTY, IDLE, [], turns;
    }

    /** Another session commits `a`, unless it has to wait for one of our rows. */
    method Other(a: Action)
      requires Valid()
      modifies this`db, this`log
      ensures Valid() && Elapsed(old(db), old(log), db, log, work)
    {
      if !Blocked(db, a, work) && Admissible(db, a) {
        var (after, out) := Step(db, a);
        OneMoreByOthers(db, log, Logged(false, a, out), after, work);
        db := after;
        log := log + [Logged(false, a, out)];
      }
    }

    /** One await: other sessions commit what our locks let through; false when the statement fails. */
    method Pause() returns (ok: bool)
      requires Valid()
      modifies this`db, this`log, this`turns
      ensures Valid() && Elapsed(old(db), old(log), db, log, work)
      ensures old(turns) == [] ==> db == old(db) && log == old(log) && turns == [] && ok
    {
      hide Consistent, Elapsed;
      ElapsedSame(db, log, work);
      if turns == [] {
        return true;
      }
      var turn := turns[0];
      turns := turns[1..];
      var i := 0;
      while i < |turn.others|
        invariant Valid() && Elapsed(old(db), old(log), db, log, work)
      {
        ghost var d, l := db, log;
        Other(turn.others[i]);
        ElapsedTrans(old(db), old(log), d, l, db, log, work);
        i := i + 1;
      }
      return !turn.fault;
    }

    /** Throw the uncommitted writes away and let go of the row locks. */
    method Rollback()
      modifies this`work
      ensures work == IDLE
    {
      work := IDLE;
    }

    /**
     * Commit the writes as one transaction, or refuse when a unique constraint
     * stands against it. `a` is the transaction the writes amount to.
     */
    method Commit(ghost a: Action) returns (ok: bool)
      requires Valid() && Admissible(db, a)
      requires !Violates(db, work) ==> Written(db, work) == Step(db, a).0
      modifies this`db, this`log, this`work
      ensures Valid()
      ensures ok <==> !Violates(old(db), old(work))
      ensures ok ==> db == Step(old(db), a).0 && work == IDLE && log == old(log) + [Logged(true, a, Step(old(db), a).1)]
      ensures ok ==> Done() == old(Done()) + [Own(a, Step(old(db), a).1)]
      ensures !ok ==> db == old(db) && log == old(log) && work == old(work)
    {
      ok := !Violates(db, work);
      if ok {
        ghost var c := Logged(true, a, Step(db, a).1);
        OneMore(db, log, c, Written(db, work));
        db := Written(db, work);
        work := IDLE;
        log := log + [c];
      }
    }
  }
}
