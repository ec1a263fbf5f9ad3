/**
 * One tenant's money tables and the transactions that change them. `Step` gives
 * the effect of a whole transaction when it runs alone; the services, statement
 * by statement and interleaved with other sessions, are in the service modules.
 */
module MoneyState {
  import opened Wrappers
  import opened Plans

  type UserId = int
  type PaymentId = int
  type MediaId = int
  type BotId = int

  const EXPIRE_AFTER := 24 * 3_600_000_000

  datatype Status = Pending | Approved | Rejected | Refunded | Expired
  datatype Channel = Card | Stars | Gateway(provider: string)
  datatype Intent = TopUp | PlanIntent(key: string)

  datatype Payment = Payment(
    user: UserId, amount: int, via: Channel, intent: Intent, status: Status,
    providerRef: Option<string>, createdAt: Option<int>, refundedAt: Option<int>)

  datatype Kind = Deposit | Refund | Purchase | BotPurchase | BotRenewal

  datatype Reference =
    | PaymentRef(payment: PaymentId)
    | GatewayRef(provider: string, ref: Option<string>)
    | StarsRef(charge: string)
    | RefundRef(payment: PaymentId)
    | PlanRef(key: string)
    | MediaRef(media: MediaId, user: UserId)
    | BotRef(bot: BotId)

  /**
   * A ledger row. `payment` is not a column: it names the payment row whose
   * transaction wrote the entry, because a gateway's own reference does not.
   */
  datatype Entry = Entry(
    user: UserId, amount: int, kind: Kind, balanceAfter: int, reference: Reference,
    payment: Option<PaymentId>)

  /** A subscription row; `paid` (not a column) is the price it was sold for. */
  datatype Sub = Sub(user: UserId, plan: string, starts: int, expires: Option<int>, active: bool, paid: int)

  /** A tenant row; `paid` (not a column) is the price it was created for. */
  datatype Tenant = Tenant(owner: UserId, paid: int, expires: Option<int>, active: bool)

  datatype Source =
    | FromPayment(payment: PaymentId)
    | FromRefund(payment: PaymentId)
    | FromSub(sub: nat)
    | FromMedia(media: MediaId, user: UserId)
    | FromBot(bot: BotId)
    | FromRenewal(bot: BotId, stamp: int)

  datatype Invoice = Invoice(source: Source, number: int, user: UserId, amount: int)

  /** The committed rows. Payment ids come from a sequence; the other ids are positions. */
  datatype Db = Db(
    balance: map<UserId, int>,
    plan: map<UserId, Hold>,
    ledger: seq<Entry>,
    payments: map<PaymentId, Payment>,
    nextPayment: PaymentId,
    subs: seq<Sub>,
    media: map<(MediaId, UserId), int>,
    tenants: map<BotId, Tenant>,
    invoices: seq<Invoice>)

  const EMPTY := Db(map[], map[], [], map[], 0, [], map[], map[], [])

  datatype Grant =
    | PlanGrant(user: UserId, key: string)
    | MediaGrant(media: MediaId, user: UserId)
    | BotGrant(bot: BotId)
    | RenewalGrant(bot: BotId)

  /** What a transaction did with money, as its service reports it. */
  datatype Outcome =
    | Refusal
    | Settlement(payment: PaymentId, credited: int)
    | Reversal(payment: PaymentId, debited: int)
    | Sale(grant: Grant, price: int)
    | Other

  /** A provider's answer to a verification. */
  datatype Answer = Answer(ok: bool, amount: Option<int>, ref: Option<string>, user: Option<UserId>)

  datatype Action =
    | Register(user: UserId)
    | Create(user: UserId, amount: int, via: Channel, intent: Intent, createdAt: Option<int>)
    | Approve(payment: PaymentId)
    | Reject(payment: PaymentId)
    | Verify(payment: PaymentId, provider: string, answer: Answer)
    | Expire(payment: PaymentId)
    | RefundPayment(payment: PaymentId, at: int)
    | StarsCharge(user: UserId, key: string, price: int, charge: string)
    | BuyPlan(user: UserId, key: string, price: int, at: int, expires: Option<int>)
    | BuyMedia(media: MediaId, user: UserId, price: int)
    | BuyBot(bot: BotId, owner: UserId, price: int, expires: Option<int>)
    | RenewBot(bot: BotId, owner: UserId, price: int, expires: Option<int>)
    | SweepPlans(users: set<UserId>)
    | RecordInvoice(source: Source, user: UserId, amount: int, seenMax: int)

  // ---- the wallet -----------------------------------------------------------

  datatype Moved = Moved(db: Db) | NoUser | Insufficient

  /** One balance change with its ledger row, under the user row's lock. */
  function MoveMoney(db: Db, u: UserId, amount: int, kind: Kind, ref: Reference, p: Option<PaymentId>): Moved {
    if u !in db.balance then NoUser
    else
      var after := db.balance[u] + amount;
      if after < 0 then Insufficient
      else Moved(db.(balance := db.balance[u := after],
                     ledger := db.ledger + [Entry(u, amount, kind, after, ref, p)]))
  }

  /** A charge of `price`; nothing is written when the price is not positive. */
  function Charge(db: Db, u: UserId, price: int, kind: Kind, ref: Reference): Moved {
    if price > 0 then MoveMoney(db, u, -price, kind, ref, None)
    else if u in db.balance then Moved(db) else NoUser
  }

  // ---- payments ---------------------------------------------------------------

  function SetPayment(db: Db, id: PaymentId, p: Payment): Db {
    db.(payments := db.payments[id := p])
  }

  function CreateTx(db: Db, a: Action): (Db, Outcome)
    requires a.Create?
  {
    if a.user !in db.balance then (db, Refusal)
    else
      var p := Payment(a.user, a.amount, a.via, a.intent, Pending, None, a.createdAt, None);
      (SetPayment(db, db.nextPayment, p).(nextPayment := db.nextPayment + 1), Other)
  }

  function ApproveTx(db: Db, id: PaymentId): (Db, Outcome) {
    if id !in db.payments || db.payments[id].status == Approved then (db, Refusal)
    else
      var p := db.payments[id];
      match MoveMoney(db, p.user, Abs(p.amount), Deposit, PaymentRef(id), Some(id))
      case Moved(db1) => (SetPayment(db1, id, p.(status := Approved)), Settlement(id, Abs(p.amount)))
      case _ => (db, Refusal)
  }

  function RejectTx(db: Db, id: PaymentId): (Db, Outcome) {
    if id !in db.payments || db.payments[id].status != Pending then (db, Refusal)
    else (SetPayment(db, id, db.payments[id].(status := Rejected)), Other)
  }

  function ExpireTx(db: Db, id: PaymentId): (Db, Outcome) {
    if id !in db.payments || db.payments[id].status != Pending then (db, Refusal)
    else (SetPayment(db, id, db.payments[id].(status := Expired)), Other)
  }

  /** The gateway reported another amount, none at all, or another user. */
  predicate Mismatch(p: Payment, answer: Answer) {
    || answer.amount.None?
    || answer.amount.value != p.amount
    || (answer.user.Some? && answer.user.value != p.user)
  }

  function VerifyTx(db: Db, id: PaymentId, provider: string, answer: Answer): (Db, Outcome) {
    if id !in db.payments || db.payments[id].via != Gateway(provider) then (db, Refusal)
    else
      var p := db.payments[id];
      if p.status == Approved || p.status == Rejected || !answer.ok then (db, Refusal)
      else if Mismatch(p, answer) then (SetPayment(db, id, p.(status := Rejected)), Other)
      else
        match MoveMoney(db, p.user, Abs(p.amount), Deposit, GatewayRef(provider, answer.ref), Some(id))
        case Moved(db1) =>
          (SetPayment(db1, id, p.(status := Approved, providerRef := answer.ref)), Settlement(id, Abs(p.amount)))
        case _ => (db, Refusal)
  }

  /** Take the plan away if the user still holds that very plan. */
  function RevokePlan(db: Db, u: UserId, key: string): Db {
    if u in db.plan && db.plan[u].plan == key
    then db.(plan := db.plan[u := Hold(FREE, None)], subs := Retire(db.subs, {u}))
    else db
  }

  function Retire(subs: seq<Sub>, users: set<UserId>): seq<Sub> {
    seq(|subs|, i requires 0 <= i < |subs| =>
      if subs[i].user in users then subs[i].(active := false) else subs[i])
  }

  function RefundTx(db: Db, id: PaymentId, at: int): (Db, Outcome) {
    if id !in db.payments || db.payments[id].status != Approved then (db, Refusal)
    else
      var p := db.payments[id];
      var refunded := p.(status := Status.Refunded, refundedAt := Some(at));
      match p.intent
      case TopUp =>
        (match MoveMoney(db, p.user, -Abs(p.amount), Kind.Refund, RefundRef(id), Some(id))
         case Moved(db1) => (SetPayment(db1, id, refunded), Reversal(id, Abs(p.amount)))
         case _ => (db, Refusal))
      case PlanIntent(key) =>
        (SetPayment(RevokePlan(db, p.user, key), id, refunded), Reversal(id, 0))
  }

  predicate ChargeSeen(payments: map<PaymentId, Payment>, charge: string) {
    exists id :: id in payments && payments[id].via == Stars && payments[id].providerRef == Some(charge)
  }

  function StarsTx(db: Db, u: UserId, key: string, price: int, charge: string): (Db, Outcome) {
    if ChargeSeen(db.payments, charge) || u !in db.balance then (db, Refusal)
    else
      var id := db.nextPayment;
      var p := Payment(u, price, Stars, PlanIntent(key), Approved, Some(charge), None, None);
      var db1 := SetPayment(db, id, p).(nextPayment := id + 1);
      if price > 0 then
        match MoveMoney(db1, u, price, Deposit, StarsRef(charge), Some(id))
        case Moved(db2) => (db2, Settlement(id, price))
        case _ => (db, Refusal)
      else (db1, Settlement(id, 0))
  }

  // ---- grants -------------------------------------------------------------------

  function Paid(price: int): int {
    if price > 0 then price else 0
  }

  function BuyPlanTx(db: Db, u: UserId, key: string, price: int, at: int, expires: Option<int>): (Db, Outcome) {
    match Charge(db, u, price, Purchase, PlanRef(key))
    case Moved(db1) =>
      (db1.(plan := db1.plan[u := Hold(key, expires)],
            subs := db1.subs + [Sub(u, key, at, expires, true, Paid(price))]),
       Sale(PlanGrant(u, key), Paid(price)))
    case _ => (db, Refusal)
  }

  function BuyMediaTx(db: Db, m: MediaId, u: UserId, price: int): (Db, Outcome) {
    if price <= 0 || (m, u) in db.media then (db, Refusal)
    else
      match Charge(db, u, price, Purchase, MediaRef(m, u))
      case Moved(db1) => (db1.(media := db1.media[(m, u) := price]), Sale(MediaGrant(m, u), price))
      case _ => (db, Refusal)
  }

  function BuyBotTx(db: Db, b: BotId, owner: UserId, price: int, expires: Option<int>): (Db, Outcome) {
    if b in db.tenants then (db, Refusal)
    else
      match Charge(db, owner, price, BotPurchase, BotRef(b))
      case Moved(db1) =>
        (db1.(tenants := db1.tenants[b := Tenant(owner, Paid(price), expires, true)]), Sale(BotGrant(b), Paid(price)))
      case _ => (db, Refusal)
  }

  function RenewBotTx(db: Db, b: BotId, owner: UserId, price: int, expires: Option<int>): (Db, Outcome) {
    if b !in db.tenants then (db, Refusal)
    else
      match Charge(db, owner, price, BotRenewal, BotRef(b))
      case Moved(db1) =>
        (db1.(tenants := db1.tenants[b := db1.tenants[b].(expires := expires, active := true)]),
         Sale(RenewalGrant(b), Paid(price)))
      case _ => (db, Refusal)
  }

  // ---- invoices -------------------------------------------------------------------

  /** `coalesce(max(invoice_no), 0)` */
  function MaxNumber(invoices: seq<Invoice>): int {
    if invoices == [] then 0 else Max(MaxNumber(invoices[..|invoices| - 1]), invoices[|invoices| - 1].number)
  }

  /** One of the two unique constraints of the invoice table would be violated. */
  predicate InvoiceClash(invoices: seq<Invoice>, source: Source, number: int) {
    exists i :: 0 <= i < |invoices| && (invoices[i].source == source || invoices[i].number == number)
  }

  function InvoiceTx(db: Db, source: Source, u: UserId, amount: int, seenMax: int): (Db, Outcome) {
    if InvoiceClash(db.invoices, source, seenMax + 1) || u !in db.balance then (db, Refusal)
    else (db.(invoices := db.invoices + [Invoice(source, seenMax + 1, u, amount)]), Other)
  }

  // ---- one transaction -----------------------------------------------------------

  function SweepUsers(plan: map<UserId, Hold>, users: set<UserId>): map<UserId, Hold> {
    map u | u in plan :: if u in users then plan[u].(plan := FREE) else plan[u]
  }

  function Step(db: Db, a: Action): (Db, Outcome) {
    match a
    case Register(u) =>
      if u in db.balance then (db, Refusal)
      else (db.(balance := db.balance[u := 0], plan := db.plan[u := Hold(FREE, None)]), Other)
    case Create(_, _, _, _, _) => CreateTx(db, a)
    case Approve(id) => ApproveTx(db, id)
    case Reject(id) => RejectTx(db, id)
    case Verify(id, provider, answer) => VerifyTx(db, id, provider, answer)
    case Expire(id) => ExpireTx(db, id)
    case RefundPayment(id, at) => RefundTx(db, id, at)
    case StarsCharge(u, key, price, charge) => StarsTx(db, u, key, price, charge)
    case BuyPlan(u, key, price, at, expires) => BuyPlanTx(db, u, key, price, at, expires)
    case BuyMedia(m, u, price) => BuyMediaTx(db, m, u, price)
    case BuyBot(b, owner, price, expires) => BuyBotTx(db, b, owner, price, expires)
    case RenewBot(b, owner, price, expires) => RenewBotTx(db, b, owner, price, expires)
    case SweepPlans(users) =>
      (db.(plan := SweepUsers(db.plan, users), subs := Retire(db.subs, users)), Other)
    case RecordInvoice(source, u, amount, seenMax) => InvoiceTx(db, source, u, amount, seenMax)
  }

  // ---- what the callers of a transaction guarantee -----------------------------------

  /** The event an invoice is recorded for is in the tables, with the invoiced amount. */
  predicate Backed(db: Db, source: Source, amount: int) {
    match source
    case FromPayment(id) => id in db.payments && db.payments[id].amount == amount && HasEntry(db.ledger, id)
    case FromRefund(id) => id in db.payments && db.payments[id].amount == amount && db.payments[id].refundedAt.Some?
    case FromSub(i) => i < |db.subs| && db.subs[i].paid == amount
    case FromMedia(m, u) => (m, u) in db.media && db.media[(m, u)] == amount
    case FromBot(b) => b in db.tenants && db.tenants[b].paid == amount
    case FromRenewal(b, _) => b in db.tenants && HasRenewal(db.ledger, b, amount)
  }

  predicate HasEntry(ledger: seq<Entry>, id: PaymentId) {
    exists i :: 0 <= i < |ledger| && ledger[i].payment == Some(id)
  }

  predicate HasRenewal(ledger: seq<Entry>, b: BotId, amount: int) {
    exists i ::
      && 0 <= i < |ledger| && ledger[i].kind == BotRenewal && ledger[i].reference == BotRef(b)
      && ledger[i].amount == -amount
  }

  /**
   * An invoice is recorded only after the event it is for has committed, with a
   * number that follows a maximum the table has really had; the services are
   * proved to keep to this, and nothing is asked of the other transactions.
   */
  predicate Admissible(db: Db, a: Action) {
    a.RecordInvoice? ==> Backed(db, a.source, a.amount) && 0 <= a.seenMax <= MaxNumber(db.invoices)
  }
}
