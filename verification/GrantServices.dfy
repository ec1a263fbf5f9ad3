/** app/services/paywall_service.py: the gate before a delivery and one-time file purchases. */
module PaywallService {
  import opened Wrappers
  import opened Plans
  import opened MoneyState
  import opened MoneyLaws
  import opened MoneyRuns
  import opened Sessions
  import opened WalletService
  import opened InvoiceService
  import opened SubscriptionService

  // ---- the gate -------------------------------------------------------------

  datatype Gate = Open | PlanRequired | PaymentRequired | QuotaExceeded

  /** The columns of a media row the paywall looks at. */
  datatype Paywalled = Paywalled(id: MediaId, owner: Option<UserId>, requiredPlan: string, price: Option<int>)

  /** A known user with the plan columns and whether a purchase of this file is on record. */
  datatype Visitor = Visitor(user: UserId, hold: Hold, entitled: bool)

  function PriceOf(m: Paywalled): int {
    if m.price.Some? then m.price.value else 0
  }

  /** `quota` is the tenant's free daily quota; `used` is today's count, None when Redis is down. */
  function CheckAccess(m: Paywalled, admin: bool, visitor: Option<Visitor>, quota: int, used: Option<int>,
                       now: int): Gate {
    if admin then Open
    else match visitor
      case None =>
        if PriceOf(m) > 0 then PaymentRequired
        else if m.requiredPlan != "" then PlanRequired
        else Open
      case Some(v) =>
        var plan := EffectivePlan(v.hold, now);
        if m.requiredPlan != "" && PlanRank(plan) < PlanRank(m.requiredPlan) then PlanRequired
        else if PriceOf(m) > 0 && m.owner != Some(v.user) && !v.entitled then PaymentRequired
        else if quota > 0 && plan == FREE && (if used.Some? then used.value else 0) >= quota then QuotaExceeded
        else Open
  }

  /** A file that asks for `required` is not for holders of `plan`: free < plus < max. */
  predicate Below(plan: string, required: string) {
    || (required == "plus" && plan != "plus" && plan != "max")
    || (required == "max" && plan != "max")
  }

  /**
   * Who is stopped, and why: first those whose running plan is below the required one,
   * then those who have neither paid for the file nor own it, then the free ones who
   * have used up their quota of the day; everybody else gets in.
   */
  lemma AccessMeans(m: Paywalled, v: Visitor, quota: int, used: Option<int>, now: int)
    ensures var gate := CheckAccess(m, false, Some(v), quota, used, now);
            var running := v.hold.plan != "" && (v.hold.expires == None || now < v.hold.expires.value);
            var plan := if running then v.hold.plan else "free";
            var unpaid := m.price.Some? && m.price.value > 0 && m.owner != Some(v.user) && !v.entitled;
            && (gate == PlanRequired <==> Below(plan, m.requiredPlan))
            && (gate == PaymentRequired <==> !Below(plan, m.requiredPlan) && unpaid)
            && (gate == QuotaExceeded <==>
                  && !Below(plan, m.requiredPlan) && !unpaid
                  && plan == "free" && 0 < quota <= if used.Some? then used.value else 0)
    ensures CheckAccess(m, true, Some(v), quota, used, now) == Open
  {
  }

  /** Strangers get exactly the files that cost nothing and ask for no plan; admins get all. */
  lemma StrangersMean(m: Paywalled, quota: int, used: Option<int>, now: int)
    ensures CheckAccess(m, true, None, quota, used, now) == Open
    ensures var gate := CheckAccess(m, false, None, quota, used, now);
            && (gate == PaymentRequired <==> m.price.Some? && m.price.value > 0)
            && (gate == PlanRequired <==> (m.price.Some? ==> m.price.value <= 0) && m.requiredPlan != "")
            && gate != QuotaExceeded
  {
  }

  /**
   * What a purchase changes: a visitor stopped for payment is let through once
   * entitled, unless the free quota stops them; nothing else is opened by it.
   */
  lemma EntitlementOpensExactlyThePrice(m: Paywalled, v: Visitor, quota: int, used: Option<int>, now: int)
    requires !v.entitled
    ensures var before := CheckAccess(m, false, Some(v), quota, used, now);
            var after := CheckAccess(m, false, Some(v.(entitled := true)), quota, used, now);
            && after != PaymentRequired
            && (before != PaymentRequired ==> after == before)
            && (before == PaymentRequired ==> after == Open || after == QuotaExceeded)
            && (before == PaymentRequired <==>
                before != after || (PriceOf(m) > 0 && m.owner != Some(v.user) && before != PlanRequired))
  {
  }

  // ---- the purchase ------------------------------------------------------------

  datatype BuyReply = Purchased | AlreadyOwned | CannotPay | NotForSale

  lemma BuyMediaWrites(db: Db, m: MediaId, u: UserId, price: int)
    requires u in db.balance && price > 0 && 0 <= db.balance[u] - price
    ensures var w := Charged(db, u, price, Purchase, MediaRef(m, u)).(media := Some(((m, u), price)));
            && (Violates(db, w) <==> (m, u) in db.media)
            && (!Violates(db, w) ==>
                  && Step(db, BuyMedia(m, u, price)) == (Written(db, w), Sale(MediaGrant(m, u), price))
                  && Backed(Written(db, w), FromMedia(m, u), price)
                  && (m, u) in Written(db, w).media && u in Written(db, w).balance)
  {
  }

  lemma MediaStays(d0: Db, d1: Db, k: (MediaId, UserId))
    requires Later(d0, d1) && k in d0.media
    ensures k in d1.media
  {
  }

  /**
   * Buy a file from the wallet: debit and entitlement commit together or not at
   * all, once for each user and file whatever Redis says. CannotPay also stands
   * for a statement that failed.
   */
  method BuyFile(s: Session, m: MediaId, u: UserId, price: int, redis: Redis) returns (r: BuyReply)
    requires s.Valid() && s.work == IDLE && u in s.db.balance
    modifies s
    ensures s.Valid() && s.work == IDLE && Later(old(s.db), s.db)
    ensures r.Purchased? ==>
              && (m, u) in s.db.media
              && DidAndInvoiced(old(s.Done()), s.Done(), Own(BuyMedia(m, u, price), Sale(MediaGrant(m, u), price)),
                                FromMedia(m, u), price)
    ensures !r.Purchased? ==> s.Done() == old(s.Done())
    ensures r.NotForSale? <==> price <= 0
    ensures r.AlreadyOwned? ==> redis == Held || (m, u) in s.db.media
    ensures old(s.turns) == [] ==>
              && s.turns == []
              && (r.AlreadyOwned? <==> price > 0 && ((m, u) in old(s.db).media || redis == Held))
              && (r.Purchased? <==>
                    && price > 0 && (m, u) !in old(s.db).media && redis != Held && old(s.db).balance[u] >= price)
  {
    hide Consistent, MoneyInv, Later, Guarded, Step, Replay, Written, Violates, Backed, Mine, DidAndInvoiced,
         AtMostInvoice;
    LaterSame(s.db);
    if price <= 0 {
      return NotForSale;
    }
    var ok := s.Pause();
    LaterFrom(old(s.db), old(s.log), s.db, s.log, IDLE);
    UserStays(old(s.db), s.db, u);
    if !ok {
      return CannotPay;
    }
    if (m, u) in s.db.media || redis == Held {
      return AlreadyOwned;
    }
    ghost var d1 := s.db;
    var refused := ChargeFirst(s, u, price, Purchase, MediaRef(m, u));
    LaterTrans(old(s.db), d1, s.db);
    if refused.Some? {
      s.Rollback();
      return CannotPay;
    }
    ghost var d2 := s.db;
    r := FinishBuy(s, m, u, price);
    LaterTrans(old(s.db), d2, s.db);
  }

  /** After the charge: the entitlement, which a concurrent purchase may already hold, the commit and the invoice. */
  method FinishBuy(s: Session, m: MediaId, u: UserId, price: int) returns (r: BuyReply)
    requires s.Valid() && price > 0 && u in s.db.balance && 0 <= s.db.balance[u] - price
    requires s.work == Charged(s.db, u, price, Purchase, MediaRef(m, u))
    modifies s
    ensures s.Valid() && s.work == IDLE && Later(old(s.db), s.db)
    ensures r.Purchased? || r.AlreadyOwned? || r.CannotPay?
    ensures r.Purchased? ==>
              && (m, u) in s.db.media
              && DidAndInvoiced(old(s.Done()), s.Done(), Own(BuyMedia(m, u, price), Sale(MediaGrant(m, u), price)),
                                FromMedia(m, u), price)
    ensures !r.Purchased? ==> s.Done() == old(s.Done())
    ensures r.AlreadyOwned? ==> (m, u) in s.db.media
    ensures old(s.turns) == [] ==>
              s.turns == [] && !r.CannotPay? && (r.AlreadyOwned? <==> (m, u) in old(s.db).media)
  {
    hide Consistent, MoneyInv, Later, Guarded, Step, Replay, Written, Violates, Backed, Mine, DidAndInvoiced,
         AtMostInvoice;
    s.work := s.work.(media := Some(((m, u), price)));
    ghost var d2, l2 := s.db, s.log;
    var ok := s.Pause();
    LaterFrom(d2, l2, s.db, s.log, s.work);
    LockedUser(d2, s.db, s.work, u);
    if !ok {
      s.Rollback();
      return CannotPay;
    }
    BuyMediaWrites(s.db, m, u, price);
    ConsistentInvariant(s.db, s.log);
    ghost var d3 := s.db;
    ok := s.Commit(BuyMedia(m, u, price));
    if !ok {
      s.Rollback();
      return AlreadyOwned;
    }
    ConsistentLater(d3, BuyMedia(m, u, price), s.db);
    LaterTrans(old(s.db), d3, s.db);
    ghost var d4, done := s.db, s.Done();
    var _ := SafeRecord(s, FromMedia(m, u), u, price);
    ThenInvoiced(old(s.Done()), done, s.Done(), Own(BuyMedia(m, u, price), Sale(MediaGrant(m, u), price)),
                 FromMedia(m, u), price);
    LaterTrans(old(s.db), d4, s.db);
    MediaStays(d4, s.db, (m, u));
    return Purchased;
  }
}

/** app/services/bot_creation_service.py: buy a hosted bot, and renew it. */
module BotCreationService {
  import opened Wrappers
  import opened Plans
  import opened MoneyState
  import opened MoneyLaws
  import opened MoneyRuns
  import opened Sessions
  import opened WalletService
  import opened InvoiceService
  import opened SubscriptionService

  /** A row of the bot plan table. */
  datatype BotPlan = BotPlan(price: int, days: int, active: bool)

  datatype BotReply =
    | Created(expires: Option<int>)
    | Unavailable | AlreadyRegistered | CannotAfford | DoubleTap | RolledBack

  function FirstExpiry(days: int, now: int): Option<int> {
    if days > 0 then Some(now + days * DAY) else None
  }

  /** Where a renewal starts: at the end of a running rental, or now. */
  function RenewalBase(current: Option<int>, now: int): int {
    if current.Some? && current.value > now then current.value else now
  }

  /** A renewal extends a running rental and restarts a finished one. */
  function RenewedExpiry(current: Option<int>, days: int, now: int): Option<int> {
    if days > 0 then Some(RenewalBase(current, now) + days * DAY) else None
  }

  /** A rental for `days` more: on top of a running one, else from now on; for ever when `days` is not positive. */
  predicate RentedUntil(current: Option<int>, days: int, now: int, expires: Option<int>) {
    match expires
    case None => days <= 0
    case Some(end) =>
      && days > 0
      && (current.Some? && current.value > now ==> end == current.value + days * 86_400_000_000)
      && (!(current.Some? && current.value > now) ==> end == now + days * 86_400_000_000)
  }

  lemma RenewalMeans(current: Option<int>, days: int, now: int, expires: Option<int>)
    ensures RentedUntil(current, days, now, expires) <==> expires == RenewedExpiry(current, days, now)
  {
  }

  lemma BuyBotWrites(db: Db, b: BotId, owner: UserId, price: int, expires: Option<int>)
    requires owner in db.balance && (price > 0 ==> 0 <= db.balance[owner] - price)
    ensures var w :=
              Charged(db, owner, price, BotPurchase,
                      BotRef(b)).(newTenant := Some((b, Tenant(owner, Paid(price), expires, true))));
            && (Violates(db, w) <==> b in db.tenants)
            && (!Violates(db, w) ==>
                  && Step(db, BuyBot(b, owner, price, expires)) == (Written(db, w), Sale(BotGrant(b), Paid(price)))
                  && Backed(Written(db, w), FromBot(b), Paid(price))
                  && b in Written(db, w).tenants && owner in Written(db, w).balance)
  {
  }

  lemma TenantStays(d0: Db, d1: Db, b: BotId)
    requires Later(d0, d1) && b in d0.tenants
    ensures b in d1.tenants && d1.tenants[b].owner == d0.tenants[b].owner && d1.tenants[b].paid == d0.tenants[b].paid
  {
  }

  /**
   * Charge the wallet and insert the tenant in one transaction. The unique bot
   * id lets at most one of several concurrent calls through, and only that one
   * is charged.
   */
  method CreateFromWallet(s: Session, owner: UserId, b: BotId, plan: Option<BotPlan>, redis: Redis, now: int)
    returns (r: BotReply)
    requires s.Valid() && s.work == IDLE && owner in s.db.balance
    modifies s
    ensures s.Valid() && s.work == IDLE && Later(old(s.db), s.db)
    ensures r.Created? ==>
              && plan.Some? && plan.value.active
              && r.expires == (if plan.value.days > 0 then Some(now + plan.value.days * 86_400_000_000) else None)
              && b in s.db.tenants && s.db.tenants[b].owner == owner && s.db.tenants[b].paid == Paid(plan.value.price)
              && DidAndInvoiced(old(s.Done()), s.Done(),
                                Own(BuyBot(b, owner, plan.value.price, r.expires),
                                    Sale(BotGrant(b), Paid(plan.value.price))),
                                FromBot(b), Paid(plan.value.price))
    ensures !r.Created? ==> s.Done() == old(s.Done())
    ensures r.Unavailable? <==> plan.None? || !plan.value.active
    ensures r.AlreadyRegistered? ==> b in s.db.tenants
    ensures r.DoubleTap? ==> redis == Held || b in s.db.tenants
    ensures r.CannotAfford? ==> plan.Some? && owner in s.db.balance && s.db.balance[owner] < plan.value.price
    ensures old(s.turns) == [] ==>
              && s.turns == [] && !r.RolledBack?
              && (r.AlreadyRegistered? <==> !r.Unavailable? && b in old(s.db).tenants)
              && (r.DoubleTap? ==> redis == Held)
              && (r.Created? <==>
                    && plan.Some? && plan.value.active && b !in old(s.db).tenants && redis != Held
                    && (plan.value.price > 0 ==> old(s.db).balance[owner] >= plan.value.price))
  {
    hide Consistent, MoneyInv, Later, Guarded, Step, Replay, Written, Violates, Backed, Mine;
    LaterSame(s.db);
    if plan.None? || !plan.value.active {
      return Unavailable;
    }
    var price := plan.value.price;
    var ok := s.Pause();
    LaterFrom(old(s.db), old(s.log), s.db, s.log, IDLE);
    UserStays(old(s.db), s.db, owner);
    if !ok {
      return RolledBack;
    }
    if b in s.db.tenants {
      return AlreadyRegistered;
    }
    if redis == Held {
      return DoubleTap;
    }
    ghost var d1 := s.db;
    var refused := ChargeFirst(s, owner, price, BotPurchase, BotRef(b));
    LaterTrans(old(s.db), d1, s.db);
    if refused.Some? {
      s.Rollback();
      return if refused.value.TooPoor? then CannotAfford else RolledBack;
    }
    var expires := FirstExpiry(plan.value.days, now);
    ghost var d2 := s.db;
    r := FinishCreate(s, owner, b, price, expires);
    LaterTrans(old(s.db), d2, s.db);
  }

  /** The tenant row, the commit and the receipt, after the charge. */
  method FinishCreate(s: Session, owner: UserId, b: BotId, price: int, expires: Option<int>) returns (r: BotReply)
    requires s.Valid() && owner in s.db.balance && (price > 0 ==> 0 <= s.db.balance[owner] - price)
    requires s.work == Charged(s.db, owner, price, BotPurchase, BotRef(b))
    modifies s
    ensures s.Valid() && s.work == IDLE && Later(old(s.db), s.db)
    ensures r == Created(expires) || r == DoubleTap || r == RolledBack
    ensures r.Created? ==>
              && b in s.db.tenants && s.db.tenants[b].owner == owner && s.db.tenants[b].paid == Paid(price)
              && DidAndInvoiced(old(s.Done()), s.Done(),
                                Own(BuyBot(b, owner, price, expires), Sale(BotGrant(b), Paid(price))),
                                FromBot(b), Paid(price))
    ensures !r.Created? ==> s.Done() == old(s.Done())
    ensures r.DoubleTap? ==> b in s.db.tenants
    ensures old(s.turns) == [] ==> s.turns == [] && (r.Created? <==> b !in old(s.db).tenants) && !r.RolledBack?
  {
    hide Consistent, MoneyInv, Later, Guarded, Step, Replay, Written, Violates, Backed, Mine,
         DidAndInvoiced, AtMostInvoice;
    s.work := s.work.(newTenant := Some((b, Tenant(owner, Paid(price), expires, true))));
    ghost var d2, l2 := s.db, s.log;
    var ok := s.Pause();
    LaterFrom(d2, l2, s.db, s.log, s.work);
    UserStays(d2, s.db, owner);
    if !ok {
      s.Rollback();
      return RolledBack;
    }
    if price > 0 {
      LockedUser(d2, s.db, s.work, owner);
    }
    BuyBotWrites(s.db, b, owner, price, expires);
    CreatedTenant(s.db, s.work, b);
    ConsistentInvariant(s.db, s.log);
    ghost var d3 := s.db;
    ghost var a := BuyBot(b, owner, price, expires);
    ok := s.Commit(a);
    if !ok {
      s.Rollback();
      return DoubleTap;
    }
    ConsistentLater(d3, a, s.db);
    LaterTrans(old(s.db), d3, s.db);
    if price > 0 {
      ghost var d4, done := s.db, s.Done();
      var _ := SafeRecord(s, FromBot(b), owner, price);
      ThenInvoiced(old(s.Done()), done, s.Done(), Own(a, Sale(BotGrant(b), Paid(price))), FromBot(b), price);
      LaterTrans(old(s.db), d4, s.db);
      TenantStays(d4, s.db, b);
    } else {
      NothingToInvoice(old(s.Done()), s.Done(), Own(a, Sale(BotGrant(b), Paid(price))), FromBot(b), Paid(price));
    }
    return Created(expires);
  }

  lemma CreatedTenant(db: Db, w: Tx, b: BotId)
    requires w.tenant.None? && w.newTenant.Some? && w.newTenant.value.0 == b
    ensures Written(db, w).tenants == db.tenants[b := w.newTenant.value.1]
  {
  }

  lemma RenewWrites(db: Db, b: BotId, t: Tenant, payer: UserId, price: int, expires: Option<int>)
    requires payer in db.balance && (price > 0 ==> 0 <= db.balance[payer] - price)
    requires b in db.tenants && t.owner == db.tenants[b].owner && t.paid == db.tenants[b].paid
    ensures var w :=
              Charged(db, payer, price, BotRenewal,
                      BotRef(b)).(tenant := Some((b, t.(expires := expires, active := true))));
            && !Violates(db, w)
            && Step(db, RenewBot(b, payer, price, expires)) == (Written(db, w), Sale(RenewalGrant(b), Paid(price)))
            && (price > 0 ==> Backed(Written(db, w), FromRenewal(b, Stamp(expires)), price))
            && payer in Written(db, w).balance
            && Written(db, w).tenants == db.tenants[b := t.(expires := expires, active := true)]
  {
    if price > 0 {
      var e := Entry(payer, -price, BotRenewal, db.balance[payer] - price, BotRef(b), None);
      assert (db.ledger + [e])[|db.ledger|] == e;
    }
  }

  /** Receipts of renewals are keyed by the second of the new expiry (truncated); a perpetual one has stamp 0. */
  function Stamp(expires: Option<int>): int {
    if expires.None? then 0
    else if expires.value >= 0 then expires.value / 1_000_000
    else -((0 - expires.value) / 1_000_000)
  }

  /** The stamp is the whole second of the expiry, cut towards zero. */
  lemma StampMeans(expires: int)
    ensures Stamp(None) == 0
    ensures var s := Stamp(Some(expires));
            && (expires >= 0 ==> s * 1_000_000 <= expires < s * 1_000_000 + 1_000_000)
            && (expires < 0 ==> s * 1_000_000 - 1_000_000 < expires <= s * 1_000_000)
  {
  }

  /** The tenant row at the moment a log entry was committed. */
  ghost function TenantAt(log: seq<Logged>, k: nat, b: BotId): Option<Tenant>
    requires k <= |log|
  {
    var d := Replay(EMPTY, Acts(log[..k]));
    if b in d.tenants then Some(d.tenants[b]) else None
  }

  /** The renewal of this call is in the log, and the tenant row it overwrote was `met`. */
  ghost predicate Renewed(before: seq<Logged>, after: seq<Logged>, a: Action, b: BotId, met: Tenant) {
    exists k :: |before| <= k < |after| && after[k].mine && after[k].act == a && TenantAt(after, k, b) == Some(met)
  }

  predicate Renews(a: Action, b: BotId) {
    a.RenewBot? && a.bot == b
  }

  /**
   * The call read the row `seen` at some point of the log and overwrote the row `met`
   * later; if nobody renewed the bot in between, the expiry it met is the one it saw.
   */
  ghost predicate RenewedFrom(before: seq<Logged>, after: seq<Logged>, a: Action, b: BotId, seen: Tenant, met: Tenant) {
    exists read: nat, k: nat ::
      && |before| <= read <= k < |after| && after[k].mine && after[k].act == a
      && TenantAt(after, read, b) == Some(seen) && TenantAt(after, k, b) == Some(met)
      && ((forall i :: read <= i < k ==> !Renews(after[i].act, b)) ==> met.expires == seen.expires)
  }

  /** Only a renewal of the bot changes its expiry. */
  lemma OnlyRenewalsMoveExpiry(db: Db, a: Action, b: BotId)
    requires b in db.tenants && !Renews(a, b)
    ensures b in Step(db, a).0.tenants && Step(db, a).0.tenants[b].expires == db.tenants[b].expires
  {
    hide Retire, SweepUsers, InvoiceClash, ChargeSeen, Mismatch;
  }

  lemma {:induction false} ExpiryStays(log: seq<Logged>, read: nat, k: nat, b: BotId)
    requires read <= k <= |log| && TenantAt(log, read, b).Some?
    requires forall i :: read <= i < k ==> !Renews(log[i].act, b)
    ensures TenantAt(log, k, b).Some? && TenantAt(log, k, b).value.expires == TenantAt(log, read, b).value.expires
    decreases k
  {
    hide Step;
    if read < k {
      ExpiryStays(log, read, k - 1, b);
      var front := log[..k - 1];
      assert log[..k] == front + [log[k - 1]];
      assert Acts(log[..k]) == Acts(front) + [log[k - 1].act];
      ReplaySnoc(EMPTY, Acts(front), log[k - 1].act);
      OnlyRenewalsMoveExpiry(Replay(EMPTY, Acts(front)), log[k - 1].act, b);
    }
  }

  lemma RenewedAfterReading(before: seq<Logged>, l1: seq<Logged>, d1: Db, after: seq<Logged>, a: Action, b: BotId,
                            seen: Tenant, met: Tenant)
    requires Consistent(d1, l1) && b in d1.tenants && d1.tenants[b] == seen
    requires before <= l1 <= after && Renewed(l1, after, a, b, met)
    ensures RenewedFrom(before, after, a, b, seen, met)
  {
    hide Step, Legal, Faithful, Replay;
    var k :| |l1| <= k < |after| && after[k].mine && after[k].act == a && TenantAt(after, k, b) == Some(met);
    assert after[..|l1|] == l1;
    assert TenantAt(after, |l1|, b) == Some(seen);
    if forall i :: |l1| <= i < k ==> !Renews(after[i].act, b) {
      ExpiryStays(after, |l1|, k, b);
    }
  }

  lemma RenewedHere(before: seq<Logged>, at: seq<Logged>, d: Db, a: Action, out: Outcome, after: seq<Logged>, b: BotId)
    requires Consistent(d, at) && before <= at && at + [Logged(true, a, out)] <= after
    requires b in d.tenants
    ensures Renewed(before, after, a, b, d.tenants[b])
  {
    var k := |at|;
    assert after[..k] == at;
    assert after[k] == Logged(true, a, out);
  }

  lemma RenewedSince(before: seq<Logged>, mid: seq<Logged>, after: seq<Logged>, a: Action, b: BotId, met: Tenant)
    requires before <= mid && Renewed(mid, after, a, b, met)
    ensures Renewed(before, after, a, b, met)
  {
  }

  /** The new expiry extends the row it overwrites exactly when both start the renewal at the same instant. */
  lemma ExtendsIffSameBase(seen: Option<int>, met: Option<int>, days: int, now: int)
    ensures RenewedExpiry(seen, days, now) == RenewedExpiry(met, days, now) <==>
            days <= 0 || RenewalBase(seen, now) == RenewalBase(met, now)
  {
  }

  datatype RenewReply = Extended(expires: Option<int>) | NoPlan | NoTenant | NoFunds | Undone

  /**
   * Charge the payer and push the tenant's expiry forward in one transaction.
   * `seen` is the tenant row the call read, from which the new expiry is computed,
   * and `met` the committed row it overwrites: the rental is extended exactly when
   * the two start the renewal at the same instant, and so whenever nobody renews the
   * bot between the read and the commit.
   */
  method RenewFromWallet(s: Session, b: BotId, payer: UserId, plan: Option<BotPlan>, now: int)
    returns (r: RenewReply, seen: Option<Tenant>, ghost met: Option<Tenant>)
    requires s.Valid() && s.work == IDLE && payer in s.db.balance
    modifies s
    ensures s.Valid() && s.work == IDLE && Later(old(s.db), s.db)
    ensures r.Extended? ==>
              && plan.Some? && plan.value.active && seen.Some?
              && RentedUntil(seen.value.expires, plan.value.days, now, r.expires)
              && DidAndInvoiced(old(s.Done()), s.Done(),
                                Own(RenewBot(b, payer, plan.value.price, r.expires),
                                    Sale(RenewalGrant(b), Paid(plan.value.price))),
                                FromRenewal(b, Stamp(r.expires)), Paid(plan.value.price))
    ensures r.Extended? ==>
              && met.Some?
              && RenewedFrom(old(s.log), s.log, RenewBot(b, payer, plan.value.price, r.expires), b, seen.value,
                             met.value)
              && (RentedUntil(met.value.expires, plan.value.days, now, r.expires) <==>
                    plan.value.days <= 0 || RenewalBase(seen.value.expires, now) == RenewalBase(met.value.expires, now))
    ensures !r.Extended? ==> s.Done() == old(s.Done())
    ensures r.NoFunds? ==> plan.Some? && payer in s.db.balance && s.db.balance[payer] < plan.value.price
    ensures old(s.turns) == [] ==>
              && s.turns == [] && !r.Undone?
              && (r.NoTenant? <==> !r.NoPlan? && b !in old(s.db).tenants)
              && (r.Extended? <==>
                    && plan.Some? && plan.value.active && b in old(s.db).tenants
                    && (plan.value.price > 0 ==> old(s.db).balance[payer] >= plan.value.price))
              && (r.Extended? ==> seen == met == Some(old(s.db).tenants[b]))
  {
    hide Consistent, MoneyInv, Later, Guarded, Step, Replay, Written, Violates, Backed, Mine, Stamp, Renewed,
         RenewedFrom;
    LaterSame(s.db);
    seen, met := None, None;
    if plan.None? || !plan.value.active {
      return NoPlan, None, None;
    }
    var price := plan.value.price;
    var ok := s.Pause();
    LaterFrom(old(s.db), old(s.log), s.db, s.log, IDLE);
    UserStays(old(s.db), s.db, payer);
    if !ok {
      return Undone, None, None;
    }
    if b !in s.db.tenants {
      return NoTenant, None, None;
    }
    var tenant := s.db.tenants[b];
    ghost var d1, l1 := s.db, s.log;
    var refused := ChargeFirst(s, payer, price, BotRenewal, BotRef(b));
    LaterTrans(old(s.db), d1, s.db);
    TenantStays(d1, s.db, b);
    if refused.Some? {
      s.Rollback();
      return if refused.value.TooPoor? then NoFunds else Undone, None, None;
    }
    var expires := RenewedExpiry(tenant.expires, plan.value.days, now);
    ghost var d2 := s.db;
    ghost var l2, row := s.log, tenant;
    ok, row := FinishRenew(s, b, tenant, payer, price, expires);
    LaterTrans(old(s.db), d2, s.db);
    if !ok {
      return Undone, None, None;
    }
    RenewedSince(l1, l2, s.log, RenewBot(b, payer, price, expires), b, row);
    RenewedAfterReading(old(s.log), l1, d1, s.log, RenewBot(b, payer, price, expires), b, tenant, row);
    ExtendsIffSameBase(tenant.expires, row.expires, plan.value.days, now);
    RenewalMeans(tenant.expires, plan.value.days, now, expires);
    RenewalMeans(row.expires, plan.value.days, now, expires);
    return Extended(expires), Some(tenant), Some(row);
  }

  /** The tenant row, the commit and the receipt, after the charge; false when it was undone. */
  method FinishRenew(s: Session, b: BotId, tenant: Tenant, payer: UserId, price: int, expires: Option<int>)
    returns (ok: bool, ghost met: Tenant)
    requires s.Valid() && payer in s.db.balance && (price > 0 ==> 0 <= s.db.balance[payer] - price)
    requires s.work == Charged(s.db, payer, price, BotRenewal, BotRef(b))
    requires b in s.db.tenants && tenant.owner == s.db.tenants[b].owner && tenant.paid == s.db.tenants[b].paid
    modifies s
    ensures s.Valid() && s.work == IDLE && Later(old(s.db), s.db)
    ensures ok ==>
              DidAndInvoiced(old(s.Done()), s.Done(),
                             Own(RenewBot(b, payer, price, expires), Sale(RenewalGrant(b), Paid(price))),
                                  FromRenewal(b, Stamp(expires)), Paid(price))
    ensures ok ==> Renewed(old(s.log), s.log, RenewBot(b, payer, price, expires), b, met)
    ensures !ok ==> s.Done() == old(s.Done())
    ensures old(s.log) <= s.log
    ensures old(s.turns) == [] ==> s.turns == [] && ok && met == old(s.db).tenants[b]
  {
    hide Consistent, MoneyInv, Later, Guarded, Step, Replay, Written, Violates, Backed, Mine, Stamp, Renewed,
         DidAndInvoiced, AtMostInvoice;
    met := s.db.tenants[b];
    s.work := s.work.(tenant := Some((b, tenant.(expires := expires, active := true))));
    ghost var d2, l2 := s.db, s.log;
    ok := s.Pause();
    LaterFrom(d2, l2, s.db, s.log, s.work);
    TenantStays(d2, s.db, b);
    UserStays(d2, s.db, payer);
    if !ok {
      s.Rollback();
      return false, met;
    }
    if price > 0 {
      LockedUser(d2, s.db, s.work, payer);
    }
    RenewWrites(s.db, b, tenant, payer, price, expires);
    ConsistentInvariant(s.db, s.log);
    met := s.db.tenants[b];
    ghost var d3, l3 := s.db, s.log;
    ghost var a := RenewBot(b, payer, price, expires);
    ok := s.Commit(a);
    ConsistentLater(d3, a, s.db);
    LaterTrans(old(s.db), d3, s.db);
    if price > 0 {
      ghost var d4, done := s.db, s.Done();
      var _ := SafeRecord(s, FromRenewal(b, Stamp(expires)), payer, price);
      ThenInvoiced(old(s.Done()), done, s.Done(), Own(a, Sale(RenewalGrant(b), Paid(price))),
                   FromRenewal(b, Stamp(expires)), price);
      LaterTrans(old(s.db), d4, s.db);
    } else {
      NothingToInvoice(old(s.Done()), s.Done(), Own(a, Sale(RenewalGrant(b), Paid(price))),
                       FromRenewal(b, Stamp(expires)), Paid(price));
    }
    RenewedHere(old(s.log), l3, d3, a, Sale(RenewalGrant(b), Paid(price)), s.log, b);
  }
}
