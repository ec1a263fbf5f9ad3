/**
 * The global invariant of the money tables and the proof that every transaction
 * keeps it. Each transaction is first shown to fit one bookkeeping rule, `Fits`;
 * the invariant is then derived from the rule alone.
 */
module MoneyLaws {
  import opened Wrappers
  import opened Plans
  import opened MoneyState

  // ---- selecting ledger rows --------------------------------------------------

  /** Which ledger rows are being looked at. */
  datatype Selector =
    | OfUser(user: UserId)
    | OfPayment(payment: PaymentId)
    | OfPlan(user: UserId, key: string)
    | OfMedia(media: MediaId, user: UserId)
    | OfBotSale(bot: BotId)

  predicate Picks(e: Entry, s: Selector) {
    match s
    case OfUser(u) => e.user == u
    case OfPayment(id) => e.payment == Some(id)
    case OfPlan(u, key) => e.kind == Purchase && e.reference == PlanRef(key) && e.user == u
    case OfMedia(m, u) => e.kind == Purchase && e.reference == MediaRef(m, u)
    case OfBotSale(b) => e.kind == BotPurchase && e.reference == BotRef(b)
  }

  /** The signed amounts of the selected rows, in ledger order. */
  function Amounts(ledger: seq<Entry>, s: Selector): seq<int> {
    if ledger == [] then []
    else
      var front := Amounts(ledger[..|ledger| - 1], s);
      if Picks(ledger[|ledger| - 1], s) then front + [ledger[|ledger| - 1].amount] else front
  }

  /** What the row a transaction adds, if any, contributes to a selection. */
  function Share(posted: Option<Entry>, s: Selector): seq<int> {
    if posted.Some? && Picks(posted.value, s) then [posted.value.amount] else []
  }

  function Posting(ledger: seq<Entry>, posted: Option<Entry>): seq<Entry> {
    match posted
    case None => ledger
    case Some(e) => ledger + [e]
  }

  lemma AmountsPosting(ledger: seq<Entry>, posted: Option<Entry>, s: Selector)
    ensures Amounts(Posting(ledger, posted), s) == Amounts(ledger, s) + Share(posted, s)
    ensures Sum(Amounts(Posting(ledger, posted), s)) == Sum(Amounts(ledger, s)) + Sum(Share(posted, s))
  {
    if posted.Some? {
      assert (ledger + [posted.value])[..|ledger|] == ledger;
      SumSnoc(Amounts(ledger, s), posted.value.amount);
    }
  }

  lemma {:induction false} NoneSelected(ledger: seq<Entry>, s: Selector)
    requires forall e :: e in ledger ==> !Picks(e, s)
    ensures Amounts(ledger, s) == []
  {
    if ledger != [] {
      assert forall e :: e in ledger[..|ledger| - 1] ==> e in ledger;
      NoneSelected(ledger[..|ledger| - 1], s);
    }
  }

  // ---- the bookkeeping rule -------------------------------------------------------

  /** At most one ledger row is added, and exactly its amount moves, in exactly one balance. */
  ghost predicate LedgerFits(db: Db, after: Db, posted: Option<Entry>) {
    && after.ledger == Posting(db.ledger, posted)
    && (posted.Some? ==>
          var e := posted.value;
          && e.user in db.balance
          && e.balanceAfter == db.balance[e.user] + e.amount >= 0
          && after.balance == db.balance[e.user := e.balanceAfter])
    && (posted.None? ==>
          || after.balance == db.balance
          || exists u :: u !in db.balance && after.balance == db.balance[u := 0])
    && (db.plan.Keys == db.balance.Keys ==> after.plan.Keys == after.balance.Keys)
  }

  /** What a top-up has in the wallet: its amount while it is approved, nothing otherwise. */
  function Net(p: Payment): int {
    if p.status == Approved then Abs(p.amount) else 0
  }

  /** Of a payment row only status, provider_ref and refunded_at ever change. */
  ghost predicate SameOrder(p: Payment, q: Payment) {
    && q.user == p.user && q.amount == p.amount && q.via == p.via && q.intent == p.intent && q.createdAt == p.createdAt
    && (p.refundedAt.Some? ==> q.refundedAt.Some?)
    && (p.via == Stars ==> q.providerRef == p.providerRef)
    && (p.status != Pending ==> q.status != Pending)
  }

  /** Payments keep their orders; a row for a payment appears exactly with the change of its net worth. */
  ghost predicate PaymentsFit(db: Db, after: Db, posted: Option<Entry>) {
    && db.nextPayment <= after.nextPayment <= db.nextPayment + 1
    && (forall id :: id in db.payments ==> id in after.payments && SameOrder(db.payments[id], after.payments[id]))
    && (forall id :: id in after.payments && id !in db.payments ==>
          && id == db.nextPayment < after.nextPayment
          && after.payments[id].user in db.balance
          && (after.payments[id].intent == TopUp ==> Net(after.payments[id]) == 0 && Share(posted, OfPayment(id)) == [])
          && (after.payments[id].via == Stars && after.payments[id].providerRef.Some? ==>
                !ChargeSeen(db.payments, after.payments[id].providerRef.value)))
    && (forall id :: id in db.payments && db.payments[id].intent == TopUp ==>
          Net(after.payments[id]) == Net(db.payments[id]) + Sum(Share(posted, OfPayment(id))))
    && (posted.Some? && posted.value.payment.Some? ==> posted.value.payment.value < after.nextPayment)
  }

  /** An entitlement appears exactly with its debit, once, and stays. */
  ghost predicate MediaFits(db: Db, after: Db, posted: Option<Entry>) {
    forall m: MediaId, u: UserId ::
      if (m, u) in db.media
      then (m, u) in after.media && after.media[(m, u)] == db.media[(m, u)] && Share(posted, OfMedia(m, u)) == []
      else Share(posted, OfMedia(m, u)) == if (m, u) in after.media then [-after.media[(m, u)]] else []
  }

  /** A tenant appears exactly with its purchase debit, once, and stays with its owner and price. */
  ghost predicate BotsFit(db: Db, after: Db, posted: Option<Entry>) {
    forall b: BotId ::
      if b in db.tenants
      then && b in after.tenants && after.tenants[b].owner == db.tenants[b].owner
      && after.tenants[b].paid == db.tenants[b].paid
           && Share(posted, OfBotSale(b)) == []
      else Share(posted, OfBotSale(b)) ==
           if b in after.tenants && after.tenants[b].paid > 0 then [-after.tenants[b].paid] else []
  }

  /** What the newest subscription row contributes to the prices of a user and plan. */
  function SubShare(s: Sub, u: UserId, key: string): seq<int> {
    if s.user == u && s.plan == key && s.paid > 0 then [-s.paid] else []
  }

  /** A subscription row appears exactly with its plan debit; older rows can only be retired. */
  ghost predicate SubsFit(db: Db, after: Db, posted: Option<Entry>) {
    if exists s :: after.subs == db.subs + [s] then
      var s :| after.subs == db.subs + [s];
      forall u: UserId, key: string :: Share(posted, OfPlan(u, key)) == SubShare(s, u, key)
    else
      && (exists users :: after.subs == Retire(db.subs, users))
      && forall u: UserId, key: string :: Share(posted, OfPlan(u, key)) == []
  }

  ghost predicate InvoicesFit(db: Db, after: Db) {
    || after.invoices == db.invoices
    || exists i: Invoice :: after.invoices == db.invoices + [i] && !InvoiceClash(db.invoices, i.source, i.number)
  }

  ghost predicate Fits(db: Db, after: Db, posted: Option<Entry>) {
    && LedgerFits(db, after, posted)
    && PaymentsFit(db, after, posted)
    && MediaFits(db, after, posted) && BotsFit(db, after, posted) && SubsFit(db, after, posted)
    && InvoicesFit(db, after)
  }

  /** Rows are numbered below the sequence, so a new payment row is really new. */
  ghost predicate Sequenced(db: Db) {
    && 0 <= db.nextPayment && (forall id :: id in db.payments ==> 0 <= id < db.nextPayment)
    && db.plan.Keys == db.balance.Keys
  }

  /** The ledger row that leads from `db` to `after`, if there is one. */
  function Posted(db: Db, after: Db): Option<Entry> {
    if |after.ledger| > |db.ledger| then Some(after.ledger[|after.ledger| - 1]) else None
  }

  // ---- every transaction fits the rule ------------------------------------------------

  lemma RetireNone(subs: seq<Sub>)
    ensures Retire(subs, {}) == subs
  {
  }

  /** A row of the ledger that no grant claims. */
  predicate NoGrant(posted: Option<Entry>) {
    posted.Some? ==> posted.value.kind != Purchase && posted.value.kind != BotPurchase
  }

  lemma MoveFits(db: Db, after: Db, u: UserId, amount: int, kind: Kind, ref: Reference, p: Option<PaymentId>)
    requires Sequenced(db) && MoveMoney(db, u, amount, kind, ref, p).Moved?
    requires after.ledger == MoveMoney(db, u, amount, kind, ref, p).db.ledger
    requires after.balance == MoveMoney(db, u, amount, kind, ref, p).db.balance
    requires after.plan.Keys == db.plan.Keys
    ensures Posted(db, after) == Some(Entry(u, amount, kind, db.balance[u] + amount, ref, p))
    ensures LedgerFits(db, after, Posted(db, after))
  {
  }

  lemma StayFits(db: Db, after: Db)
    requires Sequenced(db)
    requires after.ledger == db.ledger && after.balance == db.balance && after.plan.Keys == db.plan.Keys
    ensures Posted(db, after) == None
    ensures LedgerFits(db, after, Posted(db, after))
  {
  }

  /** The other tables of a transaction on one payment row. */
  ghost predicate OnlyPayments(db: Db, after: Db) {
    && after.media == db.media && after.tenants == db.tenants && after.invoices == db.invoices
    && exists users :: after.subs == Retire(db.subs, users)
  }

  lemma PaymentTablesFit(db: Db, after: Db)
    requires OnlyPayments(db, after) && NoGrant(Posted(db, after))
    ensures MediaFits(db, after, Posted(db, after)) && BotsFit(db, after, Posted(db, after))
    ensures SubsFit(db, after, Posted(db, after)) && InvoicesFit(db, after)
  {
    var users :| after.subs == Retire(db.subs, users);
    assert |after.subs| == |db.subs|;
    assert !exists s :: after.subs == db.subs + [s];
  }

  lemma OrderFits(db: Db, after: Db, id: PaymentId, q: Payment)
    requires Sequenced(db) && LedgerFits(db, after, Posted(db, after))
    requires OnlyPayments(db, after) && NoGrant(Posted(db, after))
    requires id in db.payments && after.payments == db.payments[id := q] && after.nextPayment == db.nextPayment
    requires SameOrder(db.payments[id], q)
    requires Posted(db, after).Some? ==> Posted(db, after).value.payment == Some(id)
    requires q.intent == TopUp ==>
               Net(q) == Net(db.payments[id]) + if Posted(db, after).Some? then Posted(db, after).value.amount else 0
    ensures Fits(db, after, Posted(db, after))
  {
    PaymentTablesFit(db, after);
  }

  lemma NewOrderFits(db: Db, after: Db, q: Payment)
    requires Sequenced(db) && LedgerFits(db, after, Posted(db, after))
    requires OnlyPayments(db, after) && NoGrant(Posted(db, after))
    requires after.payments == db.payments[db.nextPayment := q] && after.nextPayment == db.nextPayment + 1
    requires q.user in db.balance
    requires Posted(db, after).Some? ==> Posted(db, after).value.payment == Some(db.nextPayment)
    requires q.intent == TopUp ==> Net(q) == 0 && Posted(db, after).None?
    requires q.via == Stars && q.providerRef.Some? ==> !ChargeSeen(db.payments, q.providerRef.value)
    ensures Fits(db, after, Posted(db, after))
  {
    PaymentTablesFit(db, after);
  }

  lemma UnchangedFits(db: Db)
    requires Sequenced(db)
    ensures Fits(db, db, Posted(db, db))
  {
    RetireNone(db.subs);
    StayFits(db, db);
    PaymentTablesFit(db, db);
  }

  lemma CreateFits(db: Db, a: Action)
    requires Sequenced(db) && a.Create?
    ensures var after := CreateTx(db, a).0; Fits(db, after, Posted(db, after))
  {
    UnchangedFits(db);
    RetireNone(db.subs);
    var after := CreateTx(db, a).0;
    if CreateTx(db, a).1 != Refusal {
      StayFits(db, after);
      NewOrderFits(db, after, after.payments[db.nextPayment]);
    }
  }

  lemma ApproveFits(db: Db, id: PaymentId)
    requires Sequenced(db)
    ensures var after := ApproveTx(db, id).0; Fits(db, after, Posted(db, after))
  {
    UnchangedFits(db);
    RetireNone(db.subs);
    var after := ApproveTx(db, id).0;
    if ApproveTx(db, id).1 != Refusal {
      var p := db.payments[id];
      MoveFits(db, after, p.user, Abs(p.amount), Deposit, PaymentRef(id), Some(id));
      OrderFits(db, after, id, p.(status := Approved));
    }
  }

  lemma RejectFits(db: Db, id: PaymentId)
    requires Sequenced(db)
    ensures var after := RejectTx(db, id).0; Fits(db, after, Posted(db, after))
    ensures var after := ExpireTx(db, id).0; Fits(db, after, Posted(db, after))
  {
    UnchangedFits(db);
    RetireNone(db.subs);
    if id in db.payments && db.payments[id].status == Pending {
      var rejected, expired := RejectTx(db, id).0, ExpireTx(db, id).0;
      StayFits(db, rejected);
      OrderFits(db, rejected, id, db.payments[id].(status := Rejected));
      StayFits(db, expired);
      OrderFits(db, expired, id, db.payments[id].(status := Status.Expired));
    }
  }

  lemma VerifyFits(db: Db, id: PaymentId, provider: string, answer: Answer)
    requires Sequenced(db)
    ensures var after := VerifyTx(db, id, provider, answer).0; Fits(db, after, Posted(db, after))
  {
    UnchangedFits(db);
    RetireNone(db.subs);
    var after := VerifyTx(db, id, provider, answer).0;
    if VerifyTx(db, id, provider, answer).1 != Refusal {
      var p := db.payments[id];
      if Mismatch(p, answer) {
        StayFits(db, after);
        OrderFits(db, after, id, p.(status := Rejected));
      } else {
        MoveFits(db, after, p.user, Abs(p.amount), Deposit, GatewayRef(provider, answer.ref), Some(id));
        OrderFits(db, after, id, p.(status := Approved, providerRef := answer.ref));
      }
    }
  }

  lemma RefundFits(db: Db, id: PaymentId, at: int)
    requires Sequenced(db)
    ensures var after := RefundTx(db, id, at).0; Fits(db, after, Posted(db, after))
  {
    UnchangedFits(db);
    RetireNone(db.subs);
    var after := RefundTx(db, id, at).0;
    if RefundTx(db, id, at).1 != Refusal {
      var p := db.payments[id];
      if p.intent == TopUp {
        MoveFits(db, after, p.user, -Abs(p.amount), Kind.Refund, RefundRef(id), Some(id));
      } else {
        assert after.subs == Retire(db.subs, {}) || after.subs == Retire(db.subs, {p.user});
        StayFits(db, after);
      }
      OrderFits(db, after, id, p.(status := Status.Refunded, refundedAt := Some(at)));
    }
  }

  lemma StarsFits(db: Db, u: UserId, key: string, price: int, charge: string)
    requires Sequenced(db)
    ensures var after := StarsTx(db, u, key, price, charge).0; Fits(db, after, Posted(db, after))
  {
    UnchangedFits(db);
    RetireNone(db.subs);
    var after := StarsTx(db, u, key, price, charge).0;
    if StarsTx(db, u, key, price, charge).1 != Refusal {
      if price > 0 {
        MoveFits(db, after, u, price, Deposit, StarsRef(charge), Some(db.nextPayment));
      } else {
        StayFits(db, after);
      }
      NewOrderFits(db, after, after.payments[db.nextPayment]);
    }
  }

  // ---- grants

  /** The payments table of a transaction that sells something. */
  lemma NoPaymentFits(db: Db, after: Db)
    requires Sequenced(db)
    requires after.payments == db.payments && after.nextPayment == db.nextPayment
    requires Posted(db, after).Some? ==> Posted(db, after).value.payment == None
    ensures PaymentsFit(db, after, Posted(db, after))
  {
  }

  /** The row a charge posts. */
  function ChargeRow(db: Db, u: UserId, price: int, kind: Kind, ref: Reference): Option<Entry>
    requires u in db.balance
  {
    if price > 0 then Some(Entry(u, -price, kind, db.balance[u] - price, ref, None)) else None
  }

  lemma ChargeFits(db: Db, after: Db, u: UserId, price: int, kind: Kind, ref: Reference)
    requires Sequenced(db) && Charge(db, u, price, kind, ref).Moved?
    requires after.ledger == Charge(db, u, price, kind, ref).db.ledger
    requires after.balance == Charge(db, u, price, kind, ref).db.balance
    requires after.plan.Keys == db.plan.Keys
    requires after.payments == db.payments && after.nextPayment == db.nextPayment
    ensures Posted(db, after) == ChargeRow(db, u, price, kind, ref)
    ensures LedgerFits(db, after, Posted(db, after)) && PaymentsFit(db, after, Posted(db, after))
  {
    if price > 0 {
      MoveFits(db, after, u, -price, kind, ref, None);
    } else {
      StayFits(db, after);
    }
    NoPaymentFits(db, after);
  }

  /** The tables a sale does not concern. */
  lemma SubsUntouched(db: Db, after: Db)
    requires after.subs == db.subs
    requires forall u: UserId, key: string :: Share(Posted(db, after), OfPlan(u, key)) == []
    ensures SubsFit(db, after, Posted(db, after))
  {
    RetireNone(db.subs);
    assert !exists s :: after.subs == db.subs + [s] by {
      assert |after.subs| == |db.subs|;
    }
  }

  lemma MediaUntouched(db: Db, after: Db)
    requires after.media == db.media
    requires forall m: MediaId, u: UserId :: Share(Posted(db, after), OfMedia(m, u)) == []
    ensures MediaFits(db, after, Posted(db, after))
  {
  }

  lemma BotsUntouched(db: Db, after: Db)
    requires after.tenants.Keys == db.tenants.Keys
    requires forall b :: b in db.tenants ==>
               after.tenants[b].owner == db.tenants[b].owner && after.tenants[b].paid == db.tenants[b].paid
    requires forall b: BotId :: Share(Posted(db, after), OfBotSale(b)) == []
    ensures BotsFit(db, after, Posted(db, after))
  {
  }

  lemma SubAdded(db: Db, after: Db, s: Sub)
    requires after.subs == db.subs + [s]
    requires forall u: UserId, key: string :: Share(Posted(db, after), OfPlan(u, key)) == SubShare(s, u, key)
    ensures SubsFit(db, after, Posted(db, after))
  {
    forall s' | after.subs == db.subs + [s'] ensures s' == s {
      assert after.subs[|db.subs|] == s';
    }
  }

  lemma BuyPlanFits(db: Db, u: UserId, key: string, price: int, at: int, expires: Option<int>)
    requires Sequenced(db)
    ensures var after := BuyPlanTx(db, u, key, price, at, expires).0; Fits(db, after, Posted(db, after))
  {
    hide LedgerFits, PaymentsFit, MediaFits, BotsFit, SubsFit, InvoiceClash;
    UnchangedFits(db);
    var after := BuyPlanTx(db, u, key, price, at, expires).0;
    if BuyPlanTx(db, u, key, price, at, expires).1 != Refusal {
      ChargeFits(db, after, u, price, Purchase, PlanRef(key));
      SubAdded(db, after, Sub(u, key, at, expires, true, Paid(price)));
      MediaUntouched(db, after);
      BotsUntouched(db, after);
    }
  }

  lemma BuyMediaFits(db: Db, m: MediaId, u: UserId, price: int)
    requires Sequenced(db)
    ensures var after := BuyMediaTx(db, m, u, price).0; Fits(db, after, Posted(db, after))
  {
    hide LedgerFits, PaymentsFit, SubsFit, BotsFit, InvoiceClash;
    UnchangedFits(db);
    var after := BuyMediaTx(db, m, u, price).0;
    if BuyMediaTx(db, m, u, price).1 != Refusal {
      ChargeFits(db, after, u, price, Purchase, MediaRef(m, u));
      SubsUntouched(db, after);
      BotsUntouched(db, after);
    }
  }

  lemma BotAdded(db: Db, after: Db, b: BotId, t: Tenant)
    requires b !in db.tenants && after.tenants == db.tenants[b := t]
    requires forall x: BotId ::
               Share(Posted(db, after), OfBotSale(x)) == if x == b && t.paid > 0 then [-t.paid] else []
    ensures BotsFit(db, after, Posted(db, after))
  {
  }

  lemma BuyBotFits(db: Db, b: BotId, owner: UserId, price: int, expires: Option<int>)
    requires Sequenced(db)
    ensures var after := BuyBotTx(db, b, owner, price, expires).0; Fits(db, after, Posted(db, after))
  {
    hide LedgerFits, PaymentsFit, MediaFits, SubsFit, BotsFit, InvoiceClash;
    UnchangedFits(db);
    var after := BuyBotTx(db, b, owner, price, expires).0;
    if BuyBotTx(db, b, owner, price, expires).1 != Refusal {
      ChargeFits(db, after, owner, price, BotPurchase, BotRef(b));
      SubsUntouched(db, after);
      MediaUntouched(db, after);
      BotAdded(db, after, b, Tenant(owner, Paid(price), expires, true));
    }
  }

  lemma RenewBotFits(db: Db, b: BotId, owner: UserId, price: int, expires: Option<int>)
    requires Sequenced(db)
    ensures var after := RenewBotTx(db, b, owner, price, expires).0; Fits(db, after, Posted(db, after))
  {
    hide LedgerFits, PaymentsFit, MediaFits, SubsFit, InvoiceClash;
    UnchangedFits(db);
    var after := RenewBotTx(db, b, owner, price, expires).0;
    if RenewBotTx(db, b, owner, price, expires).1 != Refusal {
      ChargeFits(db, after, owner, price, BotRenewal, BotRef(b));
      SubsUntouched(db, after);
      MediaUntouched(db, after);
      BotsUntouched(db, after);
    }
  }

  /** Transactions that move no money and sell nothing. */
  lemma OtherFits(db: Db, a: Action)
    requires Sequenced(db) && (a.Register? || a.SweepPlans? || a.RecordInvoice?)
    ensures var after := Step(db, a).0; Fits(db, after, Posted(db, after))
  {
    UnchangedFits(db);
    var after := Step(db, a).0;
    if a.SweepPlans? {
      StayFits(db, after);
      NoPaymentFits(db, after);
      PaymentTablesFit(db, after);
    } else if after != db {
      NoPaymentFits(db, after);
      SubsUntouched(db, after);
      MediaUntouched(db, after);
      BotsUntouched(db, after);
    }
  }

  /** Every transaction fits the bookkeeping rule. */
  lemma StepFits(db: Db, a: Action)
    requires Sequenced(db)
    ensures Fits(db, Step(db, a).0, Posted(db, Step(db, a).0))
  {
    hide Fits, Posted, Sequenced, CreateTx, ApproveTx, VerifyTx, RejectTx, ExpireTx, RefundTx, StarsTx, BuyPlanTx,
         BuyMediaTx, BuyBotTx, RenewBotTx, InvoiceTx;
    match a
    case Create(_, _, _, _, _) => CreateFits(db, a);
    case Approve(id) => ApproveFits(db, id);
    case Reject(id) => RejectFits(db, id);
    case Verify(id, provider, answer) => VerifyFits(db, id, provider, answer);
    case Expire(id) => RejectFits(db, id);
    case RefundPayment(id, at) => RefundFits(db, id, at);
    case StarsCharge(u, key, price, charge) => StarsFits(db, u, key, price, charge);
    case BuyPlan(u, key, price, at, expires) => BuyPlanFits(db, u, key, price, at, expires);
    case BuyMedia(m, u, price) => BuyMediaFits(db, m, u, price);
    case BuyBot(b, owner, price, expires) => BuyBotFits(db, b, owner, price, expires);
    case RenewBot(b, owner, price, expires) => RenewBotFits(db, b, owner, price, expires);
    case _ => OtherFits(db, a);
  }

  // ---- the invariant, from the rule alone ------------------------------------------------

  /** Each balance is the sum of the user's ledger rows and is not negative. */
  ghost predicate WalletInv(db: Db) {
    && (forall e :: e in db.ledger ==> e.user in db.balance)
    && (forall u :: u in db.balance ==> 0 <= db.balance[u] == Sum(Amounts(db.ledger, OfUser(u))))
  }

  /** `balance_after` is the running balance at its row. */
  ghost predicate RunningInv(db: Db) {
    forall i :: 0 <= i < |db.ledger| ==>
      db.ledger[i].balanceAfter == Sum(Amounts(db.ledger[..i + 1], OfUser(db.ledger[i].user)))
  }

  /** Each top-up has its net worth in the ledger; a Stars charge id belongs to one payment. */
  ghost predicate PaymentInv(db: Db) {
    && (forall id :: id in db.payments ==> db.payments[id].user in db.balance)
    && (forall e :: e in db.ledger && e.payment.Some? ==> e.payment.value < db.nextPayment)
    && (forall id :: id in db.payments && db.payments[id].intent == TopUp ==>
          Sum(Amounts(db.ledger, OfPayment(id))) == Net(db.payments[id]))
    && (forall id, other | id in db.payments && other in db.payments && SameCharge(db.payments[id], db.payments[other])
          :: id == other)
  }

  predicate SameCharge(p: Payment, q: Payment) {
    p.via == Stars && q.via == Stars && p.providerRef.Some? && p.providerRef == q.providerRef
  }

  /** An entitlement for (media, user) exists iff there is one debit with its reference, of its amount. */
  ghost predicate MediaInv(db: Db) {
    forall m: MediaId, u: UserId ::
      Amounts(db.ledger, OfMedia(m, u)) == if (m, u) in db.media then [-db.media[(m, u)]] else []
  }

  /** A tenant created at a positive price has exactly one purchase debit, of that price. */
  ghost predicate BotInv(db: Db) {
    forall b: BotId ::
      Amounts(db.ledger, OfBotSale(b)) == if b in db.tenants && db.tenants[b].paid > 0 then [-db.tenants[b].paid]
          else []
  }

  /** The prices of the paid subscriptions of one user and plan, in row order. */
  function SubPrices(subs: seq<Sub>, u: UserId, key: string): seq<int> {
    if subs == [] then [] else SubPrices(subs[..|subs| - 1], u, key) + SubShare(subs[|subs| - 1], u, key)
  }

  /** The plan debits of a user and plan are, one for one and in order, those of the paid subscriptions. */
  ghost predicate PlanInv(db: Db) {
    forall u: UserId, key: string :: Amounts(db.ledger, OfPlan(u, key)) == SubPrices(db.subs, u, key)
  }

  /** Numbers are exactly 1..n in commit order, sources are distinct, and each invoice is backed. */
  ghost predicate InvoiceInv(db: Db) {
    && (forall i :: 0 <= i < |db.invoices| ==> db.invoices[i].number == i + 1)
    && (forall i, j :: 0 <= i < j < |db.invoices| ==> db.invoices[i].source != db.invoices[j].source)
    && (forall i :: 0 <= i < |db.invoices| ==> Backed(db, db.invoices[i].source, db.invoices[i].amount))
  }

  ghost predicate MoneyInv(db: Db) {
    && Sequenced(db)
    && WalletInv(db) && RunningInv(db)
    && PaymentInv(db)
    && MediaInv(db) && BotInv(db) && PlanInv(db)
    && InvoiceInv(db)
  }

  lemma RunningKept(db: Db, after: Db, posted: Option<Entry>)
    requires WalletInv(db) && RunningInv(db) && LedgerFits(db, after, posted) && WalletInv(after)
    ensures RunningInv(after)
  {
    hide Amounts;
    forall i | 0 <= i < |after.ledger|
      ensures after.ledger[i].balanceAfter == Sum(Amounts(after.ledger[..i + 1], OfUser(after.ledger[i].user)))
    {
      if i < |db.ledger| {
        assert after.ledger[..i + 1] == db.ledger[..i + 1];
      } else {
        assert after.ledger[..i + 1] == after.ledger;
      }
    }
  }

  lemma WalletKept(db: Db, after: Db, posted: Option<Entry>)
    requires WalletInv(db) && RunningInv(db) && LedgerFits(db, after, posted)
    ensures WalletInv(after) && RunningInv(after)
  {
    hide Amounts;
    forall u | u in after.balance ensures 0 <= after.balance[u] == Sum(Amounts(after.ledger, OfUser(u))) {
      AmountsPosting(db.ledger, posted, OfUser(u));
      if u !in db.balance {
        NoneSelected(db.ledger, OfUser(u));
      }
    }
    RunningKept(db, after, posted);
  }

  lemma PaymentsKept(db: Db, after: Db, posted: Option<Entry>)
    requires Sequenced(db) && PaymentInv(db) && LedgerFits(db, after, posted) && PaymentsFit(db, after, posted)
    ensures Sequenced(after) && PaymentInv(after)
  {
    forall id | id in after.payments && after.payments[id].intent == TopUp
      ensures Sum(Amounts(after.ledger, OfPayment(id))) == Net(after.payments[id])
    {
      AmountsPosting(db.ledger, posted, OfPayment(id));
      if id !in db.payments {
        NoneSelected(db.ledger, OfPayment(id));
      }
    }
  }

  lemma {:induction false} RetireKeepsPrices(subs: seq<Sub>, users: set<UserId>, u: UserId, key: string)
    ensures SubPrices(Retire(subs, users), u, key) == SubPrices(subs, u, key)
  {
    if subs != [] {
      var retired := Retire(subs, users);
      assert retired[..|retired| - 1] == Retire(subs[..|subs| - 1], users);
      RetireKeepsPrices(subs[..|subs| - 1], users, u, key);
    }
  }

  lemma MediaKept(db: Db, after: Db, posted: Option<Entry>)
    requires MediaInv(db) && after.ledger == Posting(db.ledger, posted) && MediaFits(db, after, posted)
    ensures MediaInv(after)
  {
    hide Amounts, Sum, Posting, Share;
    forall m: MediaId, u: UserId
      ensures Amounts(after.ledger, OfMedia(m, u)) == if (m, u) in after.media then [-after.media[(m, u)]] else []
    {
      AmountsPosting(db.ledger, posted, OfMedia(m, u));
      assert [] + Share(posted, OfMedia(m, u)) == Share(posted, OfMedia(m, u));
    }
  }

  lemma BotsKept(db: Db, after: Db, posted: Option<Entry>)
    requires BotInv(db) && after.ledger == Posting(db.ledger, posted) && BotsFit(db, after, posted)
    ensures BotInv(after)
  {
    hide Amounts, Sum, Posting, Share;
    forall b: BotId
      ensures Amounts(after.ledger, OfBotSale(b)) ==
              if b in after.tenants && after.tenants[b].paid > 0 then [-after.tenants[b].paid] else []
    {
      AmountsPosting(db.ledger, posted, OfBotSale(b));
      assert [] + Share(posted, OfBotSale(b)) == Share(posted, OfBotSale(b));
    }
  }

  lemma GrantsKept(db: Db, after: Db, posted: Option<Entry>)
    requires MediaInv(db) && BotInv(db) && LedgerFits(db, after, posted)
    requires MediaFits(db, after, posted) && BotsFit(db, after, posted)
    ensures MediaInv(after) && BotInv(after)
  {
    hide MediaInv, BotInv, MediaFits, BotsFit;
    MediaKept(db, after, posted);
    BotsKept(db, after, posted);
  }

  lemma PlansKept(db: Db, after: Db, posted: Option<Entry>)
    requires PlanInv(db) && LedgerFits(db, after, posted) && SubsFit(db, after, posted)
    ensures PlanInv(after)
  {
    forall u: UserId, key: string ensures Amounts(after.ledger, OfPlan(u, key)) == SubPrices(after.subs, u, key) {
      AmountsPosting(db.ledger, posted, OfPlan(u, key));
      if exists s :: after.subs == db.subs + [s] {
        assert after.subs[..|after.subs| - 1] == db.subs;
      } else {
        var users :| after.subs == Retire(db.subs, users);
        RetireKeepsPrices(db.subs, users, u, key);
      }
    }
  }

  lemma {:induction false} MaxNumberIsCount(invoices: seq<Invoice>)
    requires forall i :: 0 <= i < |invoices| ==> invoices[i].number == i + 1
    ensures MaxNumber(invoices) == |invoices|
  {
    if invoices != [] {
      MaxNumberIsCount(invoices[..|invoices| - 1]);
    }
  }

  /** The rows an invoice rests on stay. */
  lemma BackedKept(db: Db, after: Db, posted: Option<Entry>, source: Source, amount: int)
    requires Fits(db, after, posted) && Backed(db, source, amount)
    requires source.FromRefund? ==> source.payment in db.payments
    ensures Backed(after, source, amount)
  {
    match source
    case FromPayment(id) =>
      var i :| 0 <= i < |db.ledger| && db.ledger[i].payment == Some(id);
      assert after.ledger[i] == db.ledger[i];
    case FromRenewal(b, _) =>
      var i :| 0 <= i < |db.ledger| && db.ledger[i].kind == BotRenewal && db.ledger[i].reference == BotRef(b)
          && db.ledger[i].amount == -amount;
      assert after.ledger[i] == db.ledger[i];
    case _ =>
  }

  /** A recorded invoice is backed and numbered just after a maximum that was read. */
  ghost predicate InvoiceFollows(db: Db, i: Invoice) {
    && 1 <= i.number <= MaxNumber(db.invoices) + 1
    && !InvoiceClash(db.invoices, i.source, i.number)
    && Backed(db, i.source, i.amount)
  }

  lemma InvoicesFollow(db: Db, a: Action)
    requires Admissible(db, a)
    ensures var after := Step(db, a).0;
            after.invoices == db.invoices || exists i :: after.invoices == db.invoices + [i] && InvoiceFollows(db, i)
  {
    if a.RecordInvoice? {
      assert InvoiceClash(db.invoices, a.source, a.seenMax + 1)
        || InvoiceFollows(db, Invoice(a.source, a.seenMax + 1, a.user, a.amount));
    }
  }

  /** Every number up to the count is in use. */
  lemma NumberTaken(invoices: seq<Invoice>, source: Source, n: int)
    requires forall i :: 0 <= i < |invoices| ==> invoices[i].number == i + 1
    ensures 1 <= n <= |invoices| ==> InvoiceClash(invoices, source, n)
  {
    if 1 <= n <= |invoices| {
      assert invoices[n - 1].number == n;
    }
  }

  lemma InvoicesKept(db: Db, after: Db, posted: Option<Entry>)
    requires InvoiceInv(db) && Fits(db, after, posted)
    requires after.invoices == db.invoices || exists i :: after.invoices == db.invoices + [i] && InvoiceFollows(db, i)
    ensures InvoiceInv(after)
  {
    if after.invoices != db.invoices {
      var i :| after.invoices == db.invoices + [i] && InvoiceFollows(db, i);
      MaxNumberIsCount(db.invoices);
      NumberTaken(db.invoices, i.source, i.number);
      assert Backed(db, i.source, i.amount);
    }
    forall j | 0 <= j < |after.invoices|
      ensures Backed(after, after.invoices[j].source, after.invoices[j].amount)
    {
      BackedKept(db, after, posted, after.invoices[j].source, after.invoices[j].amount);
    }
  }

  lemma EmptyInv()
    ensures MoneyInv(EMPTY)
  {
  }

  /** Every transaction keeps the whole invariant. */
  lemma StepKeepsInvariant(db: Db, a: Action)
    requires MoneyInv(db) && Admissible(db, a)
    ensures MoneyInv(Step(db, a).0)
  {
    var after := Step(db, a).0;
    var posted := Posted(db, after);
    StepFits(db, a);
    WalletKept(db, after, posted);
    PaymentsKept(db, after, posted);
    GrantsKept(db, after, posted);
    PlansKept(db, after, posted);
    InvoicesFollow(db, a);
    InvoicesKept(db, after, posted);
  }
}
