/** app/services/subscription_service.py: the atomic plan purchase. */
module SubscriptionService {
  import opened Wrappers
  import opened Plans
  import opened MoneyState
  import opened MoneyLaws
  import opened MoneyRuns
  import opened Sessions
  import opened WalletService
  import opened InvoiceService

  /** A row of the plan table. */
  datatype PlanRow = PlanRow(price: int, days: int, active: bool, starsPrice: Option<int>)

  /** What Redis answers to the double-tap lock; when it is down the purchase goes on. */
  datatype Redis = Acquired | Held | Down

  datatype PurchaseReply =
    | Bought(sub: nat, expires: Option<int>, price: int)
    | NotAvailable | TooPoor | Duplicate | Failed

  /** The plan is for sale, no double tap is held back, and the wallet bears the price. */
  predicate Buyable(plan: Option<PlanRow>, redis: Redis, balance: int) {
    plan.Some? && plan.value.active && redis != Held && (plan.value.price > 0 ==> plan.value.price <= balance)
  }

  /** The writes of a purchase: the charge, the plan columns and the subscription row. */
  function PlanWrites(charged: Tx, u: UserId, key: string, price: int, now: int, expires: Option<int>): Tx {
    charged.(plan := Some((u, Hold(key, expires))), sub := Some(Sub(u, key, now, expires, true, Paid(price))))
  }

  function Charged(db: Db, u: UserId, price: int, kind: Kind, ref: Reference): Tx
    requires u in db.balance
  {
    if price > 0 then WithMove(IDLE, u, db.balance[u], -price, kind, ref, None) else IDLE
  }

  lemma BuyPlanWrites(db: Db, u: UserId, key: string, price: int, now: int, expires: Option<int>)
    requires u in db.balance && (price > 0 ==> 0 <= db.balance[u] - price)
    ensures var w := PlanWrites(Charged(db, u, price, Purchase, PlanRef(key)), u, key, price, now, expires);
            && !Violates(db, w)
            && Step(db, BuyPlan(u, key, price, now, expires)) == (Written(db, w), Sale(PlanGrant(u, key), Paid(price)))
            && Backed(Written(db, w), FromSub(|db.subs|), Paid(price)) && u in Written(db, w).balance
            && Written(db, w).payments == db.payments
  {
  }

  /** The plan columns of a user at the moment a log entry was committed. */
  ghost function HoldAt(log: seq<Logged>, k: nat, u: UserId): Option<Hold>
    requires k <= |log|
  {
    var d := Replay(EMPTY, Acts(log[..k]));
    if u in d.plan then Some(d.plan[u]) else None
  }

  /** Entry `k` of the log is a purchase of the user that extends the plan held at that very moment. */
  ghost predicate ExtendsAt(log: seq<Logged>, k: nat, u: UserId, days: int) {
    && k < |log| && log[k].act.BuyPlan? && log[k].act.user == u && HoldAt(log, k, u).Some?
    && SoldUntil(HoldAt(log, k, u).value, log[k].act.key, days, log[k].act.at, log[k].act.expires)
  }

  /** The purchase of this call is in the log, and it extends the plan held at that moment. */
  ghost predicate ExtendsHeldPlan(before: seq<Logged>, after: seq<Logged>, u: UserId, key: string, plan: PlanRow,
                                  now: int, expires: Option<int>) {
    exists k :: |before| <= k < |after| && after[k].mine && after[k].act == BuyPlan(u, key, plan.price, now, expires)
                && ExtendsAt(after, k, u, plan.days)
  }

  /**
   * The purchase of this call is in the log; quoted from `read`, it extends the plan
   * held at that moment exactly when both start the new period at the same instant.
   */
  ghost predicate BoughtFrom(before: seq<Logged>, after: seq<Logged>, a: Action, u: UserId, read: Hold, days: int)
    requires a.BuyPlan?
  {
    exists k :: |before| <= k < |after| && after[k].mine && after[k].act == a && HoldAt(after, k, u).Some?
                && (ExtendsAt(after, k, u, days) <==>
                    days == 0 || Base(read, a.key, a.at) == Base(HoldAt(after, k, u).value, a.key, a.at))
  }

  lemma BoughtHere(before: seq<Logged>, at: seq<Logged>, d: Db, a: Action, out: Outcome, after: seq<Logged>, u: UserId,
                   read: Hold, days: int)
    requires Consistent(d, at) && before <= at && at + [Logged(true, a, out)] <= after && u in d.plan
    requires a.BuyPlan? && a.user == u && a.expires == ComputeExpiry(read, a.key, days, a.at)
    ensures BoughtFrom(before, after, a, u, read, days)
  {
    var k := |at|;
    assert after[..k] == at;
    assert after[k] == Logged(true, a, out);
    assert HoldAt(after, k, u) == Some(d.plan[u]);
    QuoteMeans(d.plan[u], a.key, days, a.at, a.expires);
  }

  lemma Extended(before: seq<Logged>, at: seq<Logged>, d: Db, out: Outcome, after: seq<Logged>, u: UserId,
                 key: string, plan: PlanRow, now: int, expires: Option<int>)
    requires Consistent(d, at) && before <= at
             && at + [Logged(true, BuyPlan(u, key, plan.price, now, expires), out)] <= after
    requires u in d.plan && expires == ComputeExpiry(d.plan[u], key, plan.days, now)
    ensures ExtendsHeldPlan(before, after, u, key, plan, now, expires)
  {
    QuoteMeans(d.plan[u], key, plan.days, now, expires);
    var k := |at|;
    assert after[..k] == at;
    assert after[k] == Logged(true, BuyPlan(u, key, plan.price, now, expires), out);
  }

  /** The user's plan columns exist. */
  lemma HoldExists(db: Db, log: seq<Logged>, u: UserId)
    requires Consistent(db, log) && u in db.balance
    ensures u in db.plan && 0 <= db.balance[u]
  {
    ConsistentInvariant(db, log);
  }

  lemma UserStays(d0: Db, d1: Db, u: UserId)
    requires Later(d0, d1) && u in d0.balance
    ensures u in d1.balance
  {
  }

  /** Charge the price (when there is one), keeping the user row locked; None on success. */
  method ChargeFirst(s: Session, u: UserId, price: int, kind: Kind, ref: Reference)
    returns (refused: Option<PurchaseReply>)
    requires s.Valid() && s.work == IDLE && u in s.db.balance
    modifies s
    ensures s.Valid() && Later(old(s.db), s.db) && s.Done() == old(s.Done()) && old(s.log) <= s.log
    ensures u in s.db.balance
    ensures refused.None? ==>
              s.work == Charged(s.db, u, price, kind, ref) && (price > 0 ==> 0 <= s.db.balance[u] - price)
    ensures refused.Some? ==> refused.value.TooPoor? || refused.value.Failed?
    ensures refused == Some(TooPoor) ==> price > 0 && s.db.balance[u] < price
    ensures old(s.turns) == [] ==> s.turns == [] && s.db == old(s.db) && refused != Some(PurchaseReply.Failed)
  {
    hide Consistent, MoneyInv, Later, Guarded, Step, Replay, Written, Violates, Backed, Mine;
    if price > 0 {
      var m := Apply(s, u, -price, kind, ref, None);
      LaterFrom(old(s.db), old(s.log), s.db, s.log, IDLE);
      UserStays(old(s.db), s.db, u);
      if !m.Moved? {
        return Some(if m.Insufficient? then TooPoor else PurchaseReply.Failed);
      }
    } else {
      LaterSame(s.db);
    }
    return None;
  }

  lemma LaterSame(d: Db)
    ensures Later(d, d)
  {
  }

  /**
   * Buy a plan: charge, grant and subscription row are one transaction. A call
   * that reports a purchase has committed exactly one, and any other call none,
   * whatever Redis says and wherever a statement fails.
   */
  method PurchasePlan(s: Session, u: UserId, key: string, plan: Option<PlanRow>, redis: Redis, now: int)
    returns (r: PurchaseReply)
    requires s.Valid() && s.work == IDLE && u in s.db.balance
    modifies s
    ensures s.Valid() && s.work == IDLE && Later(old(s.db), s.db) && old(s.log) <= s.log
    ensures r.Bought? ==>
              && plan.Some? && plan.value.active && redis != Held && r.price == plan.value.price
              && DidAndInvoiced(old(s.Done()), s.Done(),
                                Own(BuyPlan(u, key, r.price, now, r.expires), Sale(PlanGrant(u, key), Paid(r.price))),
                                FromSub(r.sub), Paid(r.price))
              && (r.price <= 0 ==> |s.Done()| == |old(s.Done())| + 1)
              && (r.price > 0 ==> ExtendsHeldPlan(old(s.log), s.log, u, key, plan.value, now, r.expires))
              && (r.price <= 0 ==>
                  u in old(s.db).plan && SoldUntil(old(s.db).plan[u], key, plan.value.days, now, r.expires))
    ensures r.Bought? && r.price <= 0 ==>
              && u in old(s.db).plan
              && BoughtFrom(old(s.log), s.log, BuyPlan(u, key, r.price, now, r.expires), u, old(s.db).plan[u],
                            plan.value.days)
    ensures !r.Bought? ==> s.Done() == old(s.Done())
    ensures r.NotAvailable? <==> plan.None? || !plan.value.active
    ensures r.Duplicate? <==> !r.NotAvailable? && redis == Held
    ensures r.TooPoor? ==> plan.Some? && u in s.db.balance && s.db.balance[u] < plan.value.price
    ensures old(s.turns) == [] ==>
              && s.turns == [] && !r.Failed? && (r.Bought? || s.db == old(s.db)) && s.db.payments == old(s.db).payments
              && (r.Bought? <==> Buyable(plan, redis, old(s.db).balance[u]))
  {
    hide Consistent, MoneyInv, Later, Guarded, Step, Replay, Written, Violates, Backed, Mine, ExtendsHeldPlan,
         DidAndInvoiced, AtMostInvoice, BoughtFrom, ComputeExpiry, SoldUntil;
    LaterSame(s.db);
    if plan.None? || !plan.value.active {
      return NotAvailable;
    }
    if redis == Held {
      return Duplicate;
    }
    var price := plan.value.price;
    HoldExists(s.db, s.log, u);
    var held := s.db.plan[u];
    var refused := ChargeFirst(s, u, price, Purchase, PlanRef(key));
    if refused.Some? {
      s.Rollback();
      return refused.value;
    }
    HoldExists(s.db, s.log, u);
    if price > 0 {
      held := s.db.plan[u];
    }
    var expires := ComputeExpiry(held, key, plan.value.days, now);
    QuoteMeans(held, key, plan.value.days, now, expires);
    ghost var d1, l1 := s.db, s.log;
    var sub := FinishPurchase(s, u, key, plan.value, now, held, expires);
    LaterTrans(old(s.db), d1, s.db);
    if sub.None? {
      return PurchaseReply.Failed;
    }
    BoughtSince(old(s.log), l1, s.log, u, key, plan.value, now, held, expires);
    return Bought(sub.value, expires, price);
  }

  /** After the charge: plan and subscription, the commit, and the invoice; None when it was undone. */
  method FinishPurchase(s: Session, u: UserId, key: string, plan: PlanRow, now: int, held: Hold, expires: Option<int>)
    returns (sub: Option<nat>)
    requires s.Valid() && u in s.db.balance && u in s.db.plan && expires == ComputeExpiry(held, key, plan.days, now)
    requires s.work == Charged(s.db, u, plan.price, Purchase, PlanRef(key))
    requires plan.price > 0 ==> held == s.db.plan[u] && 0 <= s.db.balance[u] - plan.price
    modifies s
    ensures s.Valid() && s.work == IDLE && Later(old(s.db), s.db) && old(s.log) <= s.log
    ensures sub.Some? ==>
              && DidAndInvoiced(old(s.Done()), s.Done(),
                                Own(BuyPlan(u, key, plan.price, now, expires),
                                    Sale(PlanGrant(u, key), Paid(plan.price))),
                                FromSub(sub.value), Paid(plan.price))
              && (plan.price <= 0 ==> |s.Done()| == |old(s.Done())| + 1)
              && (plan.price > 0 ==> ExtendsHeldPlan(old(s.log), s.log, u, key, plan, now, expires))
              && BoughtFrom(old(s.log), s.log, BuyPlan(u, key, plan.price, now, expires), u, held, plan.days)
    ensures sub.None? ==> s.Done() == old(s.Done())
    ensures old(s.turns) == [] ==> s.turns == [] && sub.Some? && s.db.payments == old(s.db).payments
  {
    hide Consistent, MoneyInv, Later, Guarded, Step, Replay, Written, Violates, Backed, Mine, ExtendsHeldPlan,
         DidAndInvoiced, AtMostInvoice, BoughtFrom, ComputeExpiry;
    var price := plan.price;
    s.work := PlanWrites(s.work, u, key, price, now, expires);
    ghost var d1, l1 := s.db, s.log;
    var ok := s.Pause();
    LaterFrom(d1, l1, s.db, s.log, s.work);
    UserStays(d1, s.db, u);
    if !ok {
      s.Rollback();
      return None;
    }
    if price > 0 {
      LockedUser(d1, s.db, s.work, u);
    }
    HoldExists(s.db, s.log, u);
    BuyPlanWrites(s.db, u, key, price, now, expires);
    ConsistentInvariant(s.db, s.log);
    ghost var d2, l2 := s.db, s.log;
    ghost var a := BuyPlan(u, key, price, now, expires);
    ghost var out := Sale(PlanGrant(u, key), Paid(price));
    sub := Some(|s.db.subs|);
    ok := s.Commit(a);
    ConsistentLater(d2, a, s.db);
    LaterTrans(old(s.db), d2, s.db);
    if price > 0 {
      ghost var d3, done := s.db, s.Done();
      var _ := SafeRecord(s, FromSub(sub.value), u, price);
      ThenInvoiced(old(s.Done()), done, s.Done(), Own(a, out), FromSub(sub.value), price);
      LaterTrans(old(s.db), d3, s.db);
      Extended(old(s.log), l2, d2, out, s.log, u, key, plan, now, expires);
    } else {
      NothingToInvoice(old(s.Done()), s.Done(), Own(a, out), FromSub(sub.value), Paid(price));
    }
    BoughtHere(old(s.log), l2, d2, a, out, s.log, u, held, plan.days);
  }

  lemma BoughtSince(before: seq<Logged>, mid: seq<Logged>, after: seq<Logged>, u: UserId, key: string, plan: PlanRow,
                    now: int, read: Hold, expires: Option<int>)
    requires before <= mid
    ensures ExtendsHeldPlan(mid, after, u, key, plan, now, expires) ==>
              ExtendsHeldPlan(before, after, u, key, plan, now, expires)
    ensures var a := BuyPlan(u, key, plan.price, now, expires);
            BoughtFrom(mid, after, a, u, read, plan.days) ==> BoughtFrom(before, after, a, u, read, plan.days)
  {
    hide ExtendsAt, HoldAt, Base;
  }
}

/** app/services/gateway_service.py: verify an online payment and apply it. */
module GatewayService {
  import opened Wrappers
  import opened MoneyState
  import opened MoneyLaws
  import opened MoneyRuns
  import opened Sessions
  import opened WalletService
  import opened InvoiceService
  import opened SubscriptionService
  import PaymentService

  datatype VerifyReply = Credited | Already | Failed | Mismatched | Broken

  /** The intent column: `plan:<key>` buys a plan, anything else tops the wallet up. */
  function ParseIntent(intent: string): Intent {
    if "plan:" <= intent then PlanIntent(intent[5..]) else TopUp
  }

  /** Create the pending payment of an order; its id is the order id. `redirected` is the provider's answer. */
  method Start(s: Session, u: UserId, amount: int, provider: string, intent: string, created: Option<int>,
               redirected: bool)
    returns (order: Option<PaymentId>)
    requires s.Valid() && s.work == IDLE
    modifies s
    ensures s.Valid() && s.work == IDLE && Later(old(s.db), s.db)
    ensures order.Some? ==>
              && redirected
              && s.Done() ==
                  old(s.Done()) + [Own(Create(u, amount, Gateway(provider), ParseIntent(intent), created), Other)]
              && order.value !in old(s.db).payments && order.value in s.db.payments
              && s.db.payments[order.value].status == Pending && s.db.payments[order.value].amount == amount
              && s.db.payments[order.value].intent == (if "plan:" <= intent then PlanIntent(intent[5..]) else TopUp)
    ensures order.None? ==>
              || s.Done() == old(s.Done())
              || s.Done() ==
                  old(s.Done()) + [Own(Create(u, amount, Gateway(provider), ParseIntent(intent), created), Other)]
    ensures old(s.turns) == [] && redirected && u in old(s.db).balance ==> order.Some?
  {
    order := PaymentService.Create(s, u, amount, Gateway(provider), ParseIntent(intent), created);
    if !redirected {
      return None;
    }
  }

  function CreditedRow(p: Payment, answer: Answer): Payment {
    p.(status := Approved, providerRef := answer.ref)
  }

  /** The provider named exactly the order's amount, and nobody but its payer. */
  lemma MismatchMeans(p: Payment, answer: Answer)
    ensures !Mismatch(p, answer) <==>
              answer.amount == Some(p.amount) && (answer.user.Some? ==> answer.user == Some(p.user))
  {
  }

  /** A payment that a verification may still settle. */
  predicate Verifiable(db: Db, id: PaymentId, provider: string) {
    && id in db.payments && db.payments[id].via == Gateway(provider)
    && db.payments[id].status != Approved && db.payments[id].status != Rejected
  }

  lemma CreditWrites(db: Db, id: PaymentId, provider: string, answer: Answer)
    requires Verifiable(db, id, provider) && answer.ok && !Mismatch(db.payments[id], answer)
    requires db.payments[id].user in db.balance && 0 <= db.balance[db.payments[id].user]
    ensures var p := db.payments[id];
            var w := WithMove(IDLE.(lockedPayments := {id}, payment := Some((id, CreditedRow(p, answer)))),
                              p.user, db.balance[p.user], Abs(p.amount), Deposit, GatewayRef(provider, answer.ref),
                                  Some(id));
            && !Violates(db, w)
            && Step(db, Verify(id, provider, answer)) == (Written(db, w), Settlement(id, Abs(p.amount)))
            && Backed(Written(db, w), FromPayment(id), p.amount) && p.user in Written(db, w).balance
            && id in Written(db, w).payments && Written(db, w).payments[id] == CreditedRow(p, answer)
            && Written(db, w).payments == db.payments[id := CreditedRow(p, answer)]
            && Written(db, w).balance[p.user] == db.balance[p.user] + Abs(p.amount)
  {
    var p := db.payments[id];
    var e := Entry(p.user, Abs(p.amount), Deposit, db.balance[p.user] + Abs(p.amount),
                   GatewayRef(provider, answer.ref), Some(id));
    assert (db.ledger + [e])[|db.ledger|].payment == Some(id);
  }

  lemma MismatchWrites(db: Db, id: PaymentId, provider: string, answer: Answer)
    requires Verifiable(db, id, provider) && answer.ok && Mismatch(db.payments[id], answer)
    ensures var w := IDLE.(lockedPayments := {id}, payment := Some((id, db.payments[id].(status := Rejected))));
            && !Violates(db, w)
            && Step(db, Verify(id, provider, answer)) == (Written(db, w), Other)
            && id in Written(db, w).payments && Written(db, w).payments[id] == db.payments[id].(status := Rejected)
            && Written(db, w).payments == db.payments[id := db.payments[id].(status := Rejected)]
  {
  }

  /** What may follow a settlement: a receipt for a top-up, a purchase for a plan payment. */
  ghost predicate FollowUp(own: seq<Own>, p: Payment, id: PaymentId) {
    match p.intent
    case TopUp => AtMostInvoice(own, FromPayment(id), p.amount)
    case PlanIntent(key) =>
      own == [] ||
      (&& own[0].act.BuyPlan? && own[0].act.user == p.user && own[0].act.key == key
       && own[0].out == Sale(PlanGrant(p.user, key), Paid(own[0].act.price))
       && exists sub :: AtMostInvoice(own[1..], FromSub(sub), Paid(own[0].act.price)))
  }

  ghost predicate SettledBy(before: seq<Own>, after: seq<Own>, done: Own, p: Payment, id: PaymentId) {
    && |before| < |after| && after[..|before|] == before && after[|before|] == done
    && FollowUp(after[|before| + 1..], p, id)
  }

  /** The receipt of the payment is in the tables. */
  ghost predicate HasReceipt(db: Db, id: PaymentId) {
    exists i :: 0 <= i < |db.invoices| && db.invoices[i].source == FromPayment(id)
  }

  /** After the deposit: buy the plan the payment was made for, or issue the receipt. */
  method Conclude(s: Session, id: PaymentId, p: Payment, plan: Option<PlanRow>, redis: Redis, now: int)
    requires s.Valid() && s.work == IDLE
    requires p.user in s.db.balance && Backed(s.db, FromPayment(id), p.amount)
    modifies s
    ensures s.Valid() && s.work == IDLE && Later(old(s.db), s.db)
    ensures old(s.Done()) <= s.Done() && FollowUp(s.Done()[|old(s.Done())|..], p, id)
    ensures old(s.turns) == [] ==>
              && s.turns == [] && s.db.payments == old(s.db).payments
              && (p.intent == TopUp ==> HasReceipt(s.db, id))
              && (p.intent.PlanIntent? ==>
                    (s.Done() != old(s.Done()) <==> Buyable(plan, redis, old(s.db).balance[p.user])))
  {
    hide Consistent, MoneyInv, Later, Guarded, Step, Replay, Written, Violates, Backed, Mine, ExtendsHeldPlan;
    if p.intent.PlanIntent? {
      var bought := PurchasePlan(s, p.user, p.intent.key, plan, redis, now);
      if bought.Bought? {
        assert AtMostInvoice(s.Done()[|old(s.Done())|..][1..], FromSub(bought.sub), Paid(bought.price)) by {
          assert s.Done()[|old(s.Done())|..][1..] == s.Done()[|old(s.Done())| + 1..];
        }
      }
    } else {
      var receipt := SafeRecord(s, FromPayment(id), p.user, p.amount);
      assert receipt.Some? ==> HasReceipt(s.db, id);
    }
  }

  /** Commit a settlement or a mismatch of a payment whose row is locked. */
  method Settle(s: Session, id: PaymentId, provider: string, answer: Answer, ghost w: Tx) returns (r: VerifyReply)
    requires s.Valid() && w == IDLE.(lockedPayments := {id}) && s.work == w
    requires Verifiable(s.db, id, provider) && answer.ok
    modifies s
    ensures s.Valid() && s.work == IDLE && Later(old(s.db), s.db)
    ensures r.Credited? || r.Mismatched? || r.Broken?
    ensures id in s.db.payments
    ensures r.Credited? || r.Mismatched? ==>
              var p := old(s.db).payments[id];
              r.Credited? <==> answer.amount == Some(p.amount) && (answer.user.Some? ==> answer.user == Some(p.user))
    ensures r.Credited? ==>
              && s.db.payments[id] == CreditedRow(old(s.db).payments[id], answer)
              && s.Done() ==
                  old(s.Done()) + [Own(Verify(id, provider, answer), Settlement(id, Abs(s.db.payments[id].amount)))]
              && Backed(s.db, FromPayment(id), s.db.payments[id].amount) && s.db.payments[id].user in s.db.balance
    ensures r.Mismatched? ==>
              && s.db.payments[id] == old(s.db).payments[id].(status := Rejected)
              && s.Done() == old(s.Done()) + [Own(Verify(id, provider, answer), Other)]
    ensures r.Broken? ==> s.Done() == old(s.Done())
    ensures old(s.turns) == [] ==>
              && s.turns == [] && !r.Broken? && s.db.payments == old(s.db).payments[id := s.db.payments[id]]
              && var p := old(s.db).payments[id];
                 r.Credited? ==>
                   && p.user in old(s.db).balance
                   && s.db.balance[p.user] == old(s.db).balance[p.user] + Abs(p.amount)
  {
    hide Consistent, MoneyInv, Later, Guarded, Step, Replay, Written, Violates, Backed, Mine, Mismatch;
    ghost var d0, l0 := s.db, s.log;
    ghost var a := Verify(id, provider, answer);
    var p := s.db.payments[id];
    var mismatch := Mismatch(p, answer);
    MismatchMeans(p, answer);
    PaymentOwner(s.db, s.log, id);
    ghost var d1 := s.db;
    if mismatch {
      s.work := s.work.(payment := Some((id, p.(status := Rejected))));
      LaterSame(d0);
    } else {
      s.work := s.work.(payment := Some((id, CreditedRow(p, answer))));
      ghost var w1 := s.work;
      var m := Apply(s, p.user, Abs(p.amount), Deposit, GatewayRef(provider, answer.ref), Some(id));
      LaterFrom(d0, l0, s.db, s.log, w1);
      LockedPayment(d0, s.db, w1, id);
      PaymentOwner(s.db, s.log, id);
      if !m.Moved? {
        s.Rollback();
        return Broken;
      }
      d1 := s.db;
    }
    ghost var l1 := s.log;
    var ok := s.Pause();
    LaterFrom(d1, l1, s.db, s.log, s.work);
    LaterTrans(d0, d1, s.db);
    LockedPayment(d1, s.db, s.work, id);
    if !ok {
      s.Rollback();
      return Broken;
    }
    if mismatch {
      MismatchWrites(s.db, id, provider, answer);
    } else {
      LockedUser(d1, s.db, s.work, p.user);
      CreditWrites(s.db, id, provider, answer);
    }
    ConsistentInvariant(s.db, s.log);
    ghost var d2 := s.db;
    ok := s.Commit(a);
    ConsistentLater(d2, a, s.db);
    LaterTrans(d0, d2, s.db);
    return if mismatch then Mismatched else Credited;
  }

  /**
   * An undisturbed call that credits changes this payment only. It ends with the receipt
   * of a top-up, or with the purchase of a plan, unless the plan is not for sale or costs
   * more than the wallet now holds.
   */
  ghost predicate Applied(db: Db, before: seq<Own>, after: Db, done: seq<Own>, id: PaymentId, answer: Answer,
                          plan: Option<PlanRow>, redis: Redis) {
    id in db.payments && db.payments[id].user in db.balance &&
    var p := db.payments[id];
    && after.payments == db.payments[id := p.(status := Approved, providerRef := answer.ref)]
    && (p.intent == TopUp ==> HasReceipt(after, id))
    && (p.intent.PlanIntent? ==>
          (|done| > |before| + 1 <==> Buyable(plan, redis, db.balance[p.user] + Abs(p.amount))))
  }

  /**
   * Verify an order with its provider. A call that reports a credit has
   * committed exactly one settlement; a mismatch rejects and never credits;
   * every other report leaves no trace. `answer` is the provider's answer.
   */
  method VerifyAndApply(s: Session, id: PaymentId, provider: string, answer: Answer,
                        plan: Option<PlanRow>, redis: Redis, now: int) returns (r: VerifyReply)
    requires s.Valid() && s.work == IDLE
    modifies s
    ensures s.Valid() && s.work == IDLE && Later(old(s.db), s.db)
    ensures r.Credited? || r.Mismatched? ==>
              && answer.ok && id in s.db.payments && s.db.payments[id].via == Gateway(provider)
              && var p := s.db.payments[id];
                 r.Credited? <==> answer.amount == Some(p.amount) && (answer.user.Some? ==> answer.user == Some(p.user))
    ensures r.Credited? ==>
              && s.db.payments[id].status != Pending
              && SettledBy(old(s.Done()), s.Done(),
                           Own(Verify(id, provider, answer), Settlement(id, Abs(s.db.payments[id].amount))),
                           s.db.payments[id], id)
    ensures r.Mismatched? ==>
              && s.db.payments[id].status == Rejected
              && s.Done() == old(s.Done()) + [Own(Verify(id, provider, answer), Other)]
    ensures r.Already? || r.Failed? || r.Broken? ==> s.Done() == old(s.Done())
    ensures r.Already? ==> id in s.db.payments && s.db.payments[id].status == Approved
    ensures r.Failed? ==>
              id !in s.db.payments || s.db.payments[id].via != Gateway(provider)
              || s.db.payments[id].status == Rejected || !answer.ok
    ensures old(s.turns) == [] ==>
              && s.turns == [] && !r.Broken? && (r.Credited? || r.Mismatched? || s.db == old(s.db))
              && (r.Credited? || r.Mismatched? ==> id in old(s.db).payments)
              && (r.Credited? ==> Applied(old(s.db), old(s.Done()), s.db, s.Done(), id, answer, plan, redis))
              && (r.Mismatched? ==>
                    s.db.payments == old(s.db).payments[id := old(s.db).payments[id].(status := Rejected)])
  {
    hide Consistent, MoneyInv, Later, Guarded, Step, Replay, Written, Violates, Backed, Mine, FollowUp, Mismatch;
    var ok := s.Pause();
    LaterFrom(old(s.db), old(s.log), s.db, s.log, IDLE);
    if !ok {
      return Broken;
    }
    if id !in s.db.payments || s.db.payments[id].via != Gateway(provider) {
      return VerifyReply.Failed;
    }
    if s.db.payments[id].status == Approved {
      return Already;
    }
    if s.db.payments[id].status == Rejected {
      return VerifyReply.Failed;
    }
    ghost var d1, l1 := s.db, s.log;
    s.work := s.work.(lockedPayments := {id});
    ok := s.Pause();  // the provider is asked while the row is locked
    LaterFrom(d1, l1, s.db, s.log, s.work);
    LaterTrans(old(s.db), d1, s.db);
    LockedPayment(d1, s.db, s.work, id);
    if !ok || !answer.ok {
      s.Rollback();
      return if ok then VerifyReply.Failed else Broken;
    }
    ghost var d2 := s.db;
    r := Settle(s, id, provider, answer, s.work);
    LaterTrans(old(s.db), d2, s.db);
    if r.Credited? {
      ghost var d3 := s.db;
      var p := s.db.payments[id];
      Conclude(s, id, p, plan, redis, now);
      LaterTrans(old(s.db), d3, s.db);
      LaterOrder(d3, s.db, id);
      SameFollowUp(s.Done()[|old(s.Done())| + 1..], p, s.db.payments[id], id);
    }
  }

  lemma SameFollowUp(own: seq<Own>, p: Payment, q: Payment, id: PaymentId)
    requires SameOrder(p, q) && FollowUp(own, p, id)
    ensures FollowUp(own, q, id)
  {
  }
}

/** app/services/stars_service.py: plan purchases paid in Telegram Stars. */
module StarsService {
  import opened Wrappers
  import opened MoneyState
  import opened MoneyLaws
  import opened MoneyRuns
  import opened Sessions
  import opened WalletService
  import opened InvoiceService
  import opened SubscriptionService

  datatype StarsReply = Activated | AlreadyDone | Invalid | NotActivated | Broken

  /** The plan of a checkout that may proceed: a known, active plan sold for exactly this many Stars. */
  function ValidatePreCheckout(payload: string, total: int, currency: string, plan: Option<PlanRow>): bool {
    && currency == "XTR" && "plan:" <= payload
    && plan.Some? && plan.value.active && plan.value.starsPrice == Some(total)
  }

  function PayloadKey(payload: string): string {
    if "plan:" <= payload then payload[5..] else ""
  }

  function StarsRow(u: UserId, key: string, price: int, charge: string): Payment {
    Payment(u, price, Stars, PlanIntent(key), Approved, Some(charge), None, None)
  }

  /** The charge row and, for a positive price, the deposit that rides along. */
  function StarsWrites(db: Db, u: UserId, key: string, price: int, charge: string): Tx
    requires u in db.balance
  {
    var w := IDLE.(newPayment := Some(StarsRow(u, key, price, charge)));
    if price > 0 then WithMove(w, u, db.balance[u], price, Deposit, StarsRef(charge), Some(db.nextPayment)) else w
  }

  lemma ChargeWrites(db: Db, u: UserId, key: string, price: int, charge: string)
    requires u in db.balance && 0 <= db.balance[u]
    ensures var w := StarsWrites(db, u, key, price, charge);
            && (Violates(db, w) <==> ChargeSeen(db.payments, charge))
            && (!Violates(db, w) ==>
                  && Step(db, StarsCharge(u, key, price, charge)) ==
                      (Written(db, w), Settlement(db.nextPayment, Paid(price)))
                  && ChargeSeen(Written(db, w).payments, charge) && u in Written(db, w).balance
                  && Written(db, w).balance[u] == db.balance[u] + Paid(price))
  {
    if !ChargeSeen(db.payments, charge) {
      var payments := db.payments[db.nextPayment := StarsRow(u, key, price, charge)];
      assert payments[db.nextPayment].providerRef == Some(charge);
    }
  }

  /** Nothing, or the purchase of the paid plan with its receipt. */
  ghost predicate MaybeBought(own: seq<Own>, u: UserId, key: string) {
    own == [] ||
    (&& own[0].act.BuyPlan? && own[0].act.user == u && own[0].act.key == key
     && own[0].out == Sale(PlanGrant(u, key), Paid(own[0].act.price))
     && exists sub :: AtMostInvoice(own[1..], FromSub(sub), Paid(own[0].act.price)))
  }

  /** One recorded charge, and then at most the purchase. */
  ghost predicate ChargedOnce(before: seq<Own>, after: seq<Own>, u: UserId, key: string, price: int, charge: string) {
    && |before| < |after| && after[..|before|] == before
    && after[|before|].act == StarsCharge(u, key, price, charge)
    && after[|before|].out.Settlement? && after[|before|].out.credited == Paid(price)
    && MaybeBought(after[|before| + 1..], u, key)
  }

  /** Insert the charge row with its deposit; the unique charge id decides between concurrent duplicates. */
  method Record(s: Session, u: UserId, key: string, price: int, charge: string) returns (r: Option<StarsReply>)
    requires s.Valid() && s.work == IDLE && u in s.db.balance
    modifies s
    ensures s.Valid() && s.work == IDLE && Later(old(s.db), s.db) && u in s.db.balance
    ensures r.None? ==>
              exists id :: s.Done() ==
                  old(s.Done()) + [Own(StarsCharge(u, key, price, charge), Settlement(id, Paid(price)))]
    ensures r.Some? ==> s.Done() == old(s.Done()) && (r.value == AlreadyDone || r.value == Broken)
    ensures r == Some(AlreadyDone) ==> ChargeSeen(s.db.payments, charge)
    ensures old(s.turns) == [] ==>
              && s.turns == [] && r != Some(Broken)
              && (r == Some(AlreadyDone) <==> ChargeSeen(old(s.db).payments, charge))
              && (r.None? ==> s.db.balance[u] >= price)
  {
    hide Consistent, MoneyInv, Later, Guarded, Step, Replay, Written, Violates, Backed, Mine, ChargeSeen;
    HoldExists(s.db, s.log, u);
    ghost var d1, l1 := s.db, s.log;
    if price > 0 {
      // the deposit's own row lock comes first, then both rows are flushed
      var m := Apply(s, u, price, Deposit, StarsRef(charge), None);
      LaterFrom(old(s.db), old(s.log), s.db, s.log, IDLE);
      UserStays(old(s.db), s.db, u);
      HoldExists(s.db, s.log, u);
      if !m.Moved? {
        s.Rollback();
        return Some(Broken);
      }
      d1, l1 := s.db, s.log;
    } else {
      LaterSame(s.db);
    }
    ghost var w := s.work;
    var ok := s.Pause();
    LaterFrom(d1, l1, s.db, s.log, w);
    LaterTrans(old(s.db), d1, s.db);
    UserStays(d1, s.db, u);
    HoldExists(s.db, s.log, u);
    if price > 0 {
      LockedUser(d1, s.db, w, u);
    }
    if !ok {
      s.Rollback();
      return Some(Broken);
    }
    s.work := StarsWrites(s.db, u, key, price, charge);
    ChargeWrites(s.db, u, key, price, charge);
    ConsistentInvariant(s.db, s.log);
    ghost var d2 := s.db;
    ghost var a := StarsCharge(u, key, price, charge);
    ok := s.Commit(a);
    if !ok {
      s.Rollback();
      return Some(AlreadyDone);
    }
    ConsistentLater(d2, a, s.db);
    LaterTrans(old(s.db), d2, s.db);
    return None;
  }

  /**
   * Record a Stars charge and activate its plan. The charge id settles at most
   * once, however often and however concurrently it is reported.
   */
  method ApplySuccessfulPayment(s: Session, u: UserId, payload: string, charge: string, total: int, currency: string,
                                plan: Option<PlanRow>, redis: Redis, now: int) returns (r: StarsReply)
    requires s.Valid() && s.work == IDLE && u in s.db.balance
    modifies s
    ensures s.Valid() && s.work == IDLE && Later(old(s.db), s.db)
    ensures !r.Invalid? <==>
              && charge != "" && currency == "XTR" && "plan:" <= payload
              && plan.Some? && plan.value.active && plan.value.starsPrice == Some(total)
    ensures r.Activated? || r.NotActivated? ==>
              && plan.Some? && "plan:" <= payload
              && ChargedOnce(old(s.Done()), s.Done(), u, payload[5..], plan.value.price, charge)
    ensures r.Activated? ==> |s.Done()| >= |old(s.Done())| + 2
    ensures r.NotActivated? ==> |s.Done()| == |old(s.Done())| + 1
    ensures r.Invalid? || r.AlreadyDone? || r.Broken? ==> s.Done() == old(s.Done())
    ensures r.AlreadyDone? ==> ChargeSeen(s.db.payments, charge)
    ensures old(s.turns) == [] ==>
              && s.turns == [] && !r.Broken? && (r.AlreadyDone? ==> s.db == old(s.db))
              && (r.NotActivated? ==> redis == Held) && (r.Activated? ==> redis != Held)
  {
    hide Consistent, MoneyInv, Later, Guarded, Step, Replay, Written, Violates, Backed, Mine, ChargeSeen,
        ExtendsHeldPlan;
    LaterSame(s.db);
    if charge == "" || !ValidatePreCheckout(payload, total, currency, plan) {
      return Invalid;
    }
    var key := PayloadKey(payload);
    var ok := s.Pause();
    LaterFrom(old(s.db), old(s.log), s.db, s.log, IDLE);
    UserStays(old(s.db), s.db, u);
    if !ok {
      return Broken;
    }
    if ChargeSeen(s.db.payments, charge) {
      return AlreadyDone;
    }
    ghost var d1 := s.db;
    var recorded := Record(s, u, key, plan.value.price, charge);
    LaterTrans(old(s.db), d1, s.db);
    if recorded.Some? {
      return recorded.value;
    }
    ghost var d2, o2 := s.db, s.Done();
    var bought := PurchasePlan(s, u, key, plan, redis, now);
    LaterTrans(old(s.db), d2, s.db);
    ghost var own := s.Done()[|o2|..];
    assert s.Done()[|old(s.Done())| + 1..] == own;
    if bought.Bought? {
      assert own[1..] == s.Done()[|o2| + 1..];
      return Activated;
    }
    return NotActivated;
  }
}
