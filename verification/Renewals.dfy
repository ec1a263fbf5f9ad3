/**
 * What concurrent and repeated renewals of a bot come to, in terms of committed
 * transactions (app/services/bot_creation_service.py, `renew_from_wallet`).
 */
module Renewals {
  import opened Wrappers
  import opened Plans
  import opened MoneyState
  import opened MoneyLaws
  import opened MoneyRuns
  import opened BotCreationService

  // ---- an extension can be lost ---------------------------------------------------

  /**
   * Two renewals that both read the tenant row before either commits are both
   * charged, and the second leaves the expiry of the first.
   */
  lemma TwoRenewalsExtendOnce(db: Db, b: BotId, payer: UserId, price: int, days: int, now: int)
    requires b in db.tenants && payer in db.balance
    requires price > 0 && days > 0 && db.balance[payer] >= 2 * price
    ensures var e := RenewedExpiry(db.tenants[b].expires, days, now);
            var (once, first) := Step(db, RenewBot(b, payer, price, e));
            var (twice, second) := Step(once, RenewBot(b, payer, price, e));
            && first == second == Sale(RenewalGrant(b), price)
            && twice.balance[payer] == db.balance[payer] - 2 * price
            && twice.tenants[b].expires == once.tenants[b].expires == e
            && e != RenewedExpiry(once.tenants[b].expires, days, now)
  {
    var e := RenewedExpiry(db.tenants[b].expires, days, now);
    var once := Step(db, RenewBot(b, payer, price, e)).0;
    assert once.balance[payer] == db.balance[payer] - price >= 0;
  }

  // ---- a receipt can be missing ------------------------------------------------------

  predicate HasSource(db: Db, source: Source) {
    exists i :: 0 <= i < |db.invoices| && db.invoices[i].source == source
  }

  /**
   * In a consistent state, recording the receipt of a renewal with the current
   * highest number succeeds if and only if no renewal of this bot with an expiry
   * in the same second has a receipt.
   */
  lemma ReceiptIffNoneOfThisSecond(db: Db, b: BotId, u: UserId, amount: int, expires: Option<int>)
    requires MoneyInv(db) && u in db.balance
    ensures var source := FromRenewal(b, Stamp(expires));
            var (after, o) := Step(db, RecordInvoice(source, u, amount, MaxNumber(db.invoices)));
            && (o != Refusal <==> !HasSource(db, source))
            && (o != Refusal ==> after.invoices == db.invoices + [Invoice(source, |db.invoices| + 1, u, amount)])
            && (o == Refusal ==> after == db)
  {
    hide MoneyInv, MaxNumber, CreateTx, ApproveTx, VerifyTx, RejectTx, ExpireTx, RefundTx, StarsTx, BuyPlanTx,
         BuyMediaTx, BuyBotTx, RenewBotTx;
    InvariantNumbers(db);
  }

  /** How many receipts one source has. */
  function Receipts(invoices: seq<Invoice>, source: Source): nat {
    if invoices == [] then 0
    else Receipts(invoices[..|invoices| - 1], source) + if invoices[|invoices| - 1].source == source then 1 else 0
  }

  lemma {:induction false} NoReceipts(invoices: seq<Invoice>, source: Source)
    requires forall i :: 0 <= i < |invoices| ==> invoices[i].source != source
    ensures Receipts(invoices, source) == 0
  {
    if invoices != [] {
      NoReceipts(invoices[..|invoices| - 1], source);
    }
  }

  /** The transactions of two perpetual renewals, each with its receipt. */
  function TwoPerpetual(b: BotId, payer: UserId, price: int, n: nat): seq<Action> {
    var renew := RenewBot(b, payer, price, None);
    var source := FromRenewal(b, 0);
    [renew, RecordInvoice(source, payer, price, n), renew, RecordInvoice(source, payer, price, n + 1)]
  }

  lemma RenewalEffect(db: Db, b: BotId, payer: UserId, price: int)
    requires b in db.tenants && payer in db.balance && price > 0 && db.balance[payer] >= price
    ensures var (after, o) := Step(db, RenewBot(b, payer, price, None));
            && o == Sale(RenewalGrant(b), price)
            && b in after.tenants && payer in after.balance && after.balance[payer] == db.balance[payer] - price
            && after.invoices == db.invoices && after.ledger != [] && after.tenants.Keys == db.tenants.Keys
            && after.ledger[|after.ledger| - 1] ==
               Entry(payer, -price, BotRenewal, db.balance[payer] - price, BotRef(b), None)
  {
  }

  lemma RenewalStep(acts: seq<Action>, b: BotId, payer: UserId, price: int)
    requires var db := Replay(EMPTY, acts);
             Legal(EMPTY, acts) && b in db.tenants && payer in db.balance && price > 0 && db.balance[payer] >= price
    ensures var db, a := Replay(EMPTY, acts), RenewBot(b, payer, price, None);
            var after := Replay(EMPTY, acts + [a]);
            && Legal(EMPTY, acts + [a])
            && Step(db, a).1 == Sale(RenewalGrant(b), price)
            && b in after.tenants && payer in after.balance && after.balance[payer] == db.balance[payer] - price
            && after.invoices == db.invoices
            && Backed(after, FromRenewal(b, 0), price)
  {
    hide Step, Legal, Replay, Outcomes;
    RenewalEffect(Replay(EMPTY, acts), b, payer, price);
    ReplaySnoc(EMPTY, acts, RenewBot(b, payer, price, None));
  }

  lemma ReceiptStep(acts: seq<Action>, b: BotId, payer: UserId, price: int)
    requires var db := Replay(EMPTY, acts);
             Legal(EMPTY, acts) && b in db.tenants && payer in db.balance && Backed(db, FromRenewal(b, 0), price)
    ensures var db := Replay(EMPTY, acts);
            var a := RecordInvoice(FromRenewal(b, 0), payer, price, |db.invoices|);
            var after := Replay(EMPTY, acts + [a]);
            && Legal(EMPTY, acts + [a])
            && (Step(db, a).1 == Refusal <==> HasSource(db, FromRenewal(b, 0)))
            && after.balance == db.balance && after.tenants == db.tenants && after.ledger == db.ledger
            && after.invoices == (if HasSource(db, FromRenewal(b, 0)) then db.invoices
                                  else db.invoices + [Invoice(FromRenewal(b, 0), |db.invoices| + 1, payer, price)])
  {
    hide Step, Legal, MoneyInv, InvoiceTx;
    var db := Replay(EMPTY, acts);
    ReachableInvariant(acts);
    InvariantNumbers(db);
    assert Stamp(None) == 0;
    ReceiptIffNoneOfThisSecond(db, b, payer, price, None);
    ReplaySnoc(EMPTY, acts, RecordInvoice(FromRenewal(b, 0), payer, price, |db.invoices|));
    OnlyInvoices(db, FromRenewal(b, 0), payer, price, |db.invoices|);
  }

  lemma InvariantNumbers(db: Db)
    requires MoneyInv(db)
    ensures MaxNumber(db.invoices) == |db.invoices|
    ensures forall i :: 0 <= i < |db.invoices| ==> db.invoices[i].number == i + 1
  {
    MaxNumberIsCount(db.invoices);
  }

  lemma OnlyInvoices(db: Db, source: Source, u: UserId, amount: int, seen: int)
    ensures var after := Step(db, RecordInvoice(source, u, amount, seen)).0;
            after.balance == db.balance && after.tenants == db.tenants && after.ledger == db.ledger
  {
  }

  /**
   * From every reachable state in which a bot has no perpetual renewal yet, two
   * paid perpetual renewals are both charged, and leave one receipt: the second
   * is refused.
   */
  lemma TwoPerpetualRenewalsOneReceipt(acts: seq<Action>, b: BotId, payer: UserId, price: int)
    requires var db := Replay(EMPTY, acts);
             && Legal(EMPTY, acts) && b in db.tenants && payer in db.balance
             && price > 0 && db.balance[payer] >= 2 * price && !HasSource(db, FromRenewal(b, 0))
    ensures var db := Replay(EMPTY, acts);
            var more := acts + TwoPerpetual(b, payer, price, |db.invoices|);
            var after := Replay(EMPTY, more);
            && Legal(EMPTY, more)
            && payer in after.balance && after.balance[payer] == db.balance[payer] - 2 * price
            && Outcomes(EMPTY, more) == Outcomes(EMPTY, acts) +
                 [Sale(RenewalGrant(b), price), Other, Sale(RenewalGrant(b), price), Refusal]
            && Receipts(after.invoices, FromRenewal(b, 0)) == 1
  {
    hide Step, Legal, Replay, Outcomes;
    var db, source := Replay(EMPTY, acts), FromRenewal(b, 0);
    var n := |db.invoices|;
    var renew, r1, r2 := RenewBot(b, payer, price, None), RecordInvoice(source, payer, price, n),
        RecordInvoice(source, payer, price, n + 1);
    var a1 := acts + [renew];
    RenewalStep(acts, b, payer, price);
    ReplaySnoc(EMPTY, acts, renew);
    var a2 := a1 + [r1];
    ReceiptStep(a1, b, payer, price);
    ReplaySnoc(EMPTY, a1, r1);
    RecordedIsOther(Replay(EMPTY, a1), source, payer, price, n);
    var invoices := Replay(EMPTY, a2).invoices;
    assert invoices[n].source == source;
    NoReceipts(db.invoices, source);
    assert invoices[..|invoices| - 1] == db.invoices;
    var a3 := a2 + [renew];
    RenewalStep(a2, b, payer, price);
    ReplaySnoc(EMPTY, a2, renew);
    assert Replay(EMPTY, a3).invoices[n].source == source;
    ReceiptStep(a3, b, payer, price);
    ReplaySnoc(EMPTY, a3, r2);
    assert acts + TwoPerpetual(b, payer, price, n) == a3 + [r2];
    assert [Sale(RenewalGrant(b), price)] + [Other] + [Sale(RenewalGrant(b), price)] + [Refusal] ==
           [Sale(RenewalGrant(b), price), Other, Sale(RenewalGrant(b), price), Refusal];
  }

  lemma RecordedIsOther(db: Db, source: Source, u: UserId, amount: int, seen: int)
    ensures var o := Step(db, RecordInvoice(source, u, amount, seen)).1; o == Refusal || o == Other
  {
  }

  lemma RentStep(db: Db, b: BotId, owner: UserId, price: int)
    requires b !in db.tenants && owner in db.balance && price > 0 && db.balance[owner] >= price
    ensures var after := Step(db, BuyBot(b, owner, price, None)).0;
            && b in after.tenants && owner in after.balance && after.balance[owner] == db.balance[owner] - price
            && after.invoices == db.invoices
  {
  }

  /** Such a state is reached: a user tops up 500 and rents a bot for 100. */
  lemma RentedBot() returns (acts: seq<Action>)
    ensures Legal(EMPTY, acts)
    ensures var db := Replay(EMPTY, acts);
            && 1 in db.tenants && 7 in db.balance && db.balance[7] == 400 && db.invoices == []
  {
    hide Step, Legal, Replay, Outcomes;
    acts := FirstTopUp();
    ApproveRun(acts, [], Pending, None);
    acts := acts + [Approve(0)];
    RentStep(Replay(EMPTY, acts), 1, 7, 100);
    ReplaySnoc(EMPTY, acts, BuyBot(1, 7, 100, None));
    acts := acts + [BuyBot(1, 7, 100, None)];
  }

  /** A run in which a charged renewal has no receipt of its own. */
  lemma ARenewalWithoutReceipt() returns (acts: seq<Action>)
    ensures Legal(EMPTY, acts)
    ensures var os := Outcomes(EMPTY, acts);
            |os| >= 4 && os[|os| - 4..] == [Sale(RenewalGrant(1), 50), Other, Sale(RenewalGrant(1), 50), Refusal]
    ensures Receipts(Replay(EMPTY, acts).invoices, FromRenewal(1, 0)) == 1
  {
    hide Step, Legal, Replay, Outcomes;
    var rented := RentedBot();
    TwoPerpetualRenewalsOneReceipt(rented, 1, 7, 50);
    acts := rented + TwoPerpetual(1, 7, 50, 0);
  }
}
