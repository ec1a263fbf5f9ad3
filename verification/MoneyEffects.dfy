/**
 * What each money transaction comes to, said of the tables alone: when it is
 * refused, which balance moves by how much, and which rows change. The amounts,
 * statuses and comparisons are written out here and not taken from the
 * transactions.
 */
module MoneyEffects {
  import opened Wrappers
  import opened Plans
  import opened MoneyState
  import opened MoneyLaws
  import opened MoneyRuns
  import opened Sessions

  // ---- tables that stay ----------------------------------------------------------

  /** One balance moves by `amount`, with one ledger row that shows the new balance. */
  ghost predicate Books(db: Db, after: Db, u: UserId, amount: int, kind: Kind, ref: Reference, p: Option<PaymentId>) {
    && u in db.balance && after.balance.Keys == db.balance.Keys
    && after.balance[u] == db.balance[u] + amount
    && (forall v :: v in db.balance && v != u ==> after.balance[v] == db.balance[v])
    && after.ledger == db.ledger + [Entry(u, amount, kind, db.balance[u] + amount, ref, p)]
  }

  ghost predicate SameMoney(db: Db, after: Db) {
    after.balance == db.balance && after.ledger == db.ledger
  }

  /** Payment `id` becomes `q`, and no other payment changes. */
  ghost predicate Becomes(db: Db, after: Db, id: PaymentId, q: Payment) {
    && id in db.payments && after.payments.Keys == db.payments.Keys && after.payments[id] == q
    && (forall j :: j in db.payments && j != id ==> after.payments[j] == db.payments[j])
    && after.nextPayment == db.nextPayment
  }

  ghost predicate SamePayments(db: Db, after: Db) {
    after.payments == db.payments && after.nextPayment == db.nextPayment
  }

  ghost predicate SamePlans(db: Db, after: Db) {
    after.plan == db.plan && after.subs == db.subs
  }

  ghost predicate SameGrants(db: Db, after: Db) {
    after.media == db.media && after.tenants == db.tenants && after.invoices == db.invoices
  }

  /** The payer of a payment exists, has no debt, and has plan columns. */
  lemma PayerExists(db: Db, id: PaymentId)
    requires MoneyInv(db) && id in db.payments
    ensures var u := db.payments[id].user; u in db.balance && 0 <= db.balance[u] && u in db.plan
  {
  }

  lemma NoDebt(db: Db, u: UserId)
    requires MoneyInv(db) && u in db.balance
    ensures 0 <= db.balance[u]
  {
  }

  // ---- payments --------------------------------------------------------------------

  lemma CreateEffect(db: Db, u: UserId, amount: int, via: Channel, intent: Intent, created: Option<int>)
    ensures var (after, o) := Step(db, Create(u, amount, via, intent, created));
            && (o == Refusal <==> u !in db.balance) && (o == Refusal ==> after == db)
            && (o != Refusal ==>
                  && o == Other && SameMoney(db, after) && SamePlans(db, after) && SameGrants(db, after)
                  && after.nextPayment == db.nextPayment + 1
                  && after.payments == db.payments[db.nextPayment :=
                       Payment(u, amount, via, intent, Pending, None, created, None)])
  {
  }

  lemma ApproveEffect(db: Db, id: PaymentId)
    requires MoneyInv(db)
    ensures var (after, o) := Step(db, Approve(id));
            && (o == Refusal <==> id !in db.payments || db.payments[id].status == Approved)
            && (o == Refusal ==> after == db)
            && (o != Refusal ==>
                  var p := db.payments[id];
                  var size := if p.amount < 0 then 0 - p.amount else p.amount;
                  && o == Settlement(id, size)
                  && Books(db, after, p.user, size, Deposit, PaymentRef(id), Some(id))
                  && Becomes(db, after, id, p.(status := Approved))
                  && SamePlans(db, after) && SameGrants(db, after))
  {
    hide MoneyInv, CreateTx, VerifyTx, RejectTx, ExpireTx, RefundTx, StarsTx, BuyPlanTx, BuyMediaTx,
        BuyBotTx, RenewBotTx, InvoiceTx;
    if id in db.payments {
      PayerExists(db, id);
    }
  }

  lemma RejectEffect(db: Db, id: PaymentId)
    ensures var (after, o) := Step(db, Reject(id));
            && (o == Refusal <==> id !in db.payments || db.payments[id].status != Pending)
            && (o == Refusal ==> after == db)
            && (o != Refusal ==>
                  && o == Other && Becomes(db, after, id, db.payments[id].(status := Rejected))
                  && SameMoney(db, after) && SamePlans(db, after) && SameGrants(db, after))
  {
  }

  lemma ExpireEffect(db: Db, id: PaymentId)
    ensures var (after, o) := Step(db, Expire(id));
            && (o == Refusal <==> id !in db.payments || db.payments[id].status != Pending)
            && (o == Refusal ==> after == db)
            && (o != Refusal ==>
                  && o == Other && Becomes(db, after, id, db.payments[id].(status := Status.Expired))
                  && SameMoney(db, after) && SamePlans(db, after) && SameGrants(db, after))
  {
  }

  /** The provider named exactly the order's amount, and nobody but its payer. */
  predicate Confirms(p: Payment, answer: Answer) {
    answer.amount == Some(p.amount) && (answer.user.Some? ==> answer.user == Some(p.user))
  }

  /**
   * A verification settles exactly an order of this gateway that is neither approved
   * nor rejected, on an ok answer with the order's amount and no other user; an ok
   * answer with anything else rejects it and moves nothing; else nothing happens.
   */
  lemma VerifyEffect(db: Db, id: PaymentId, provider: string, answer: Answer)
    requires MoneyInv(db)
    ensures var (after, o) := Step(db, Verify(id, provider, answer));
            var open := id in db.payments && db.payments[id].via == Gateway(provider)
                        && db.payments[id].status != Approved && db.payments[id].status != Rejected;
            && (o == Refusal <==> !open || !answer.ok)
            && (o == Refusal ==> after == db)
            && (o.Settlement? <==> open && answer.ok && Confirms(db.payments[id], answer))
            && (o.Settlement? ==>
                  var p := db.payments[id];
                  var size := if p.amount < 0 then 0 - p.amount else p.amount;
                  && o == Settlement(id, size)
                  && Books(db, after, p.user, size, Deposit, GatewayRef(provider, answer.ref), Some(id))
                  && Becomes(db, after, id, p.(status := Approved, providerRef := answer.ref)))
            && (o != Refusal && !o.Settlement? ==>
                  && o == Other && SameMoney(db, after) && Becomes(db, after, id, db.payments[id].(status := Rejected)))
            && SamePlans(db, after) && SameGrants(db, after)
  {
    hide MoneyInv, CreateTx, ApproveTx, RejectTx, ExpireTx, RefundTx, StarsTx, BuyPlanTx, BuyMediaTx,
        BuyBotTx, RenewBotTx, InvoiceTx;
    if id in db.payments {
      PayerExists(db, id);
    }
  }

  /**
   * A refund takes a top-up's amount back, if the balance bears it; a plan payment
   * moves nothing, and takes the plan away, with all the user's subscriptions, if
   * the user still holds that very plan.
   */
  lemma RefundEffect(db: Db, id: PaymentId, at: int)
    requires MoneyInv(db)
    ensures var (after, o) := Step(db, RefundPayment(id, at));
            && (o == Refusal <==>
                || id !in db.payments || db.payments[id].status != Approved
                || (db.payments[id].intent == TopUp
                    && db.balance[db.payments[id].user] < if db.payments[id].amount < 0 then 0 - db.payments[id].amount
                                                         else db.payments[id].amount))
            && (o == Refusal ==> after == db)
            && (o != Refusal ==>
                  var p := db.payments[id];
                  var size := if p.amount < 0 then 0 - p.amount else p.amount;
                  && Becomes(db, after, id, p.(status := Status.Refunded, refundedAt := Some(at)))
                  && SameGrants(db, after)
                  && (p.intent == TopUp ==>
                        && o == Reversal(id, size) && SamePlans(db, after)
                        && Books(db, after, p.user, 0 - size, Kind.Refund, RefundRef(id), Some(id)))
                  && (p.intent.PlanIntent? ==>
                        && o == Reversal(id, 0) && SameMoney(db, after)
                        && if db.plan[p.user].plan == p.intent.key then TakenAway(db, after, p.user)
                           else SamePlans(db, after)))
  {
    hide MoneyInv, CreateTx, ApproveTx, VerifyTx, RejectTx, ExpireTx, StarsTx, BuyPlanTx, BuyMediaTx,
        BuyBotTx, RenewBotTx, InvoiceTx;
    if id in db.payments {
      PayerExists(db, id);
    }
  }

  /** The user is free and without an active subscription; nobody else is touched. */
  ghost predicate TakenAway(db: Db, after: Db, u: UserId) {
    && after.plan.Keys == db.plan.Keys + {u} && after.plan[u] == Hold("free", None)
    && (forall v :: v in db.plan && v != u ==> after.plan[v] == db.plan[v])
    && |after.subs| == |db.subs|
    && forall i :: 0 <= i < |db.subs| ==>
         after.subs[i] == if db.subs[i].user == u then db.subs[i].(active := false) else db.subs[i]
  }

  /** The charge id is on the row of a Stars payment. */
  ghost predicate OnRecord(db: Db, charge: string) {
    exists id :: id in db.payments && db.payments[id].via == Stars && db.payments[id].providerRef == Some(charge)
  }

  lemma StarsEffect(db: Db, u: UserId, key: string, price: int, charge: string)
    requires MoneyInv(db)
    ensures var (after, o) := Step(db, StarsCharge(u, key, price, charge));
            && (o == Refusal <==> u !in db.balance || OnRecord(db, charge))
            && (o == Refusal ==> after == db)
            && (o != Refusal ==>
                  && after.nextPayment == db.nextPayment + 1
                  && after.payments == db.payments[db.nextPayment :=
                       Payment(u, price, Stars, PlanIntent(key), Approved, Some(charge), None, None)]
                  && SamePlans(db, after) && SameGrants(db, after)
                  && (price > 0 ==>
                        && o == Settlement(db.nextPayment, price)
                        && Books(db, after, u, price, Deposit, StarsRef(charge), Some(db.nextPayment)))
                  && (price <= 0 ==> o == Settlement(db.nextPayment, 0) && SameMoney(db, after)))
  {
    hide MoneyInv, CreateTx, ApproveTx, VerifyTx, RejectTx, ExpireTx, RefundTx, BuyPlanTx, BuyMediaTx,
        BuyBotTx, RenewBotTx, InvoiceTx;
    if u in db.balance {
      NoDebt(db, u);
    }
  }

  // ---- grants --------------------------------------------------------------------------

  /** A sale is charged in full when it costs something, and costs nothing otherwise. */
  ghost predicate Charges(db: Db, after: Db, u: UserId, price: int, kind: Kind, ref: Reference) {
    if price > 0 then Books(db, after, u, 0 - price, kind, ref, None) else SameMoney(db, after)
  }

  predicate CanPay(db: Db, u: UserId, price: int) {
    u in db.balance && (price > 0 ==> db.balance[u] >= price)
  }

  lemma BuyPlanEffect(db: Db, u: UserId, key: string, price: int, at: int, expires: Option<int>)
    ensures var (after, o) := Step(db, BuyPlan(u, key, price, at, expires));
            && (o == Refusal <==> !CanPay(db, u, price)) && (o == Refusal ==> after == db)
            && (o != Refusal ==>
                  var paid := if price > 0 then price else 0;
                  && o == Sale(PlanGrant(u, key), paid) && Charges(db, after, u, price, Purchase, PlanRef(key))
                  && after.plan == db.plan[u := Hold(key, expires)]
                  && after.subs == db.subs + [Sub(u, key, at, expires, true, paid)]
                  && SamePayments(db, after) && SameGrants(db, after))
  {
  }

  lemma BuyMediaEffect(db: Db, m: MediaId, u: UserId, price: int)
    ensures var (after, o) := Step(db, BuyMedia(m, u, price));
            && (o == Refusal <==> price <= 0 || (m, u) in db.media || !CanPay(db, u, price))
            && (o == Refusal ==> after == db)
            && (o != Refusal ==>
                  && o == Sale(MediaGrant(m, u), price) && Charges(db, after, u, price, Purchase, MediaRef(m, u))
                  && after.media == db.media[(m, u) := price] && after.tenants == db.tenants
                  && after.invoices == db.invoices && SamePayments(db, after) && SamePlans(db, after))
  {
  }

  lemma BuyBotEffect(db: Db, b: BotId, owner: UserId, price: int, expires: Option<int>)
    ensures var (after, o) := Step(db, BuyBot(b, owner, price, expires));
            && (o == Refusal <==> b in db.tenants || !CanPay(db, owner, price))
            && (o == Refusal ==> after == db)
            && (o != Refusal ==>
                  var paid := if price > 0 then price else 0;
                  && o == Sale(BotGrant(b), paid) && Charges(db, after, owner, price, BotPurchase, BotRef(b))
                  && after.tenants == db.tenants[b := Tenant(owner, paid, expires, true)] && after.media == db.media
                  && after.invoices == db.invoices && SamePayments(db, after) && SamePlans(db, after))
  {
  }

  lemma RenewBotEffect(db: Db, b: BotId, payer: UserId, price: int, expires: Option<int>)
    ensures var (after, o) := Step(db, RenewBot(b, payer, price, expires));
            && (o == Refusal <==> b !in db.tenants || !CanPay(db, payer, price))
            && (o == Refusal ==> after == db)
            && (o != Refusal ==>
                  && o == Sale(RenewalGrant(b), if price > 0 then price else 0)
                  && Charges(db, after, payer, price, BotRenewal, BotRef(b))
                  && after.tenants == db.tenants[b := Tenant(db.tenants[b].owner, db.tenants[b].paid, expires, true)]
                  && after.media == db.media && after.invoices == db.invoices
                  && SamePayments(db, after) && SamePlans(db, after))
  {
  }

  /** The sweep frees exactly the users it names and deactivates exactly their subscriptions. */
  lemma SweepEffect(db: Db, users: set<UserId>)
    ensures var (after, o) := Step(db, SweepPlans(users));
            && o == Other && SameMoney(db, after) && SamePayments(db, after) && SameGrants(db, after)
            && after.plan.Keys == db.plan.Keys
            && (forall u :: u in db.plan ==>
                  after.plan[u] == Hold(if u in users then "free" else db.plan[u].plan, db.plan[u].expires))
            && |after.subs| == |db.subs|
            && forall i :: 0 <= i < |db.subs| ==>
                 after.subs[i] == if db.subs[i].user in users then db.subs[i].(active := false) else db.subs[i]
  {
  }

  lemma RegisterEffect(db: Db, u: UserId)
    ensures var (after, o) := Step(db, Register(u));
            && (o == Refusal <==> u in db.balance) && (o == Refusal ==> after == db)
            && (o != Refusal ==>
                  && o == Other && after.balance == db.balance[u := 0] && after.plan == db.plan[u := Hold("free", None)]
                  && after.ledger == db.ledger && after.subs == db.subs
                  && SamePayments(db, after) && SameGrants(db, after))
  {
  }

  lemma InvoiceEffect(db: Db, source: Source, u: UserId, amount: int, seen: int)
    ensures var (after, o) := Step(db, RecordInvoice(source, u, amount, seen));
            && (o == Refusal <==>
                  || u !in db.balance
                  || exists i :: 0 <= i < |db.invoices|
                                 && (db.invoices[i].source == source || db.invoices[i].number == seen + 1))
            && (o == Refusal ==> after == db)
            && (o != Refusal ==>
                  && o == Other && after.invoices == db.invoices + [Invoice(source, seen + 1, u, amount)]
                  && after.media == db.media && after.tenants == db.tenants
                  && SameMoney(db, after) && SamePayments(db, after) && SamePlans(db, after))
  {
  }

  // ---- the invoices of whole runs ---------------------------------------------------------

  /** The row that a charge of a renewal leaves in the ledger. */
  ghost predicate RenewalBooked(db: Db, b: BotId, amount: int) {
    exists i ::
      && 0 <= i < |db.ledger| && db.ledger[i].amount == 0 - amount
      && db.ledger[i].kind == BotRenewal && db.ledger[i].reference == BotRef(b)
  }

  /** In every run an invoice is for the amount of its event: the payment, the grant or the renewal it names. */
  lemma InvoicesAreForTheirEvents(acts: seq<Action>, i: nat)
    requires Legal(EMPTY, acts) && i < |Replay(EMPTY, acts).invoices|
    ensures var db := Replay(EMPTY, acts);
            var v := db.invoices[i];
            match v.source
            case FromPayment(id) =>
              && id in db.payments && v.amount == db.payments[id].amount
              && exists k :: 0 <= k < |db.ledger| && db.ledger[k].payment == Some(id)
            case FromRefund(id) =>
              id in db.payments && v.amount == db.payments[id].amount && db.payments[id].refundedAt.Some?
            case FromSub(n) => n < |db.subs| && v.amount == db.subs[n].paid
            case FromMedia(m, u) => (m, u) in db.media && v.amount == db.media[(m, u)]
            case FromBot(b) => b in db.tenants && v.amount == db.tenants[b].paid
            case FromRenewal(b, _) => b in db.tenants && RenewalBooked(db, b, v.amount)
  {
    hide Legal, Replay;
    ReachableInvariant(acts);
    var db := Replay(EMPTY, acts);
    assert Backed(db, db.invoices[i].source, db.invoices[i].amount);
  }

  // ---- verified settlements of whole runs --------------------------------------------------

  /**
   * However sessions are interleaved, every settlement by a verification in the log
   * answered an order of that gateway with exactly its amount and no other user.
   */
  lemma VerifiedSettlementsConfirm(db: Db, log: seq<Logged>, k: nat)
    requires Consistent(db, log) && k < |log| && log[k].act.Verify? && log[k].out.Settlement?
    ensures var a := log[k].act;
            && a.payment in db.payments && db.payments[a.payment].via == Gateway(a.provider)
            && a.answer.ok && Confirms(db.payments[a.payment], a.answer)
  {
    hide Step, MoneyInv, Legal, Admissible;
    var a := log[k].act;
    var d := Replay(EMPTY, Acts(log[..k]));
    LegalPrefix(log, k);
    ReachableInvariant(Acts(log[..k]));
    VerifyEffect(d, a.payment, a.provider, a.answer);
    OrderKept(log, k, a.payment);
  }

  lemma {:induction false} LegalPrefix(log: seq<Logged>, k: nat)
    requires Legal(EMPTY, Acts(log)) && k <= |log|
    ensures Legal(EMPTY, Acts(log[..k]))
    decreases |log|
  {
    hide Step, Replay, Admissible;
    if k == |log| {
      assert log[..k] == log;
    } else {
      var front := log[..|log| - 1];
      assert Acts(log)[..|log| - 1] == Acts(front);
      LegalPrefix(front, k);
      assert front[..k] == log[..k];
    }
  }

  /** The order of a payment stays what it was through the rest of the log. */
  lemma {:induction false} OrderKept(log: seq<Logged>, k: nat, id: PaymentId)
    requires k <= |log| && id in Replay(EMPTY, Acts(log[..k])).payments
    ensures id in Replay(EMPTY, Acts(log)).payments
    ensures SameOrder(Replay(EMPTY, Acts(log[..k])).payments[id], Replay(EMPTY, Acts(log)).payments[id])
    decreases |log|
  {
    hide Step, Legal;
    if k == |log| {
      assert log[..k] == log;
    } else {
      var front, last := log[..|log| - 1], log[|log| - 1];
      assert front[..k] == log[..k];
      OrderKept(front, k, id);
      assert Acts(log) == Acts(front) + [last.act];
      ReplaySnoc(EMPTY, Acts(front), last.act);
      ReachableSequenced(Acts(front));
      StepFits(Replay(EMPTY, Acts(front)), last.act);
    }
  }
}
