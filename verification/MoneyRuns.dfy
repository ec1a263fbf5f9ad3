/**
 * Whole runs: what holds of the money tables after any sequence of committed
 * transactions, in terms of what the services reported along the way.
 */
module MoneyRuns {
  import opened Wrappers
  import opened Plans
  import opened MoneyState
  import opened MoneyLaws

  function Replay(db: Db, acts: seq<Action>): Db {
    if acts == [] then db else Step(Replay(db, acts[..|acts| - 1]), acts[|acts| - 1]).0
  }

  function Outcomes(db: Db, acts: seq<Action>): seq<Outcome> {
    if acts == [] then []
    else
      var front := acts[..|acts| - 1];
      Outcomes(db, front) + [Step(Replay(db, front), acts[|acts| - 1]).1]
  }

  predicate Legal(db: Db, acts: seq<Action>) {
    acts == [] ||
    (Legal(db, acts[..|acts| - 1]) && Admissible(Replay(db, acts[..|acts| - 1]), acts[|acts| - 1]))
  }

  lemma ReplaySnoc(db: Db, acts: seq<Action>, a: Action)
    ensures Replay(db, acts + [a]) == Step(Replay(db, acts), a).0
    ensures Outcomes(db, acts + [a]) == Outcomes(db, acts) + [Step(Replay(db, acts), a).1]
    ensures Legal(db, acts + [a]) <==> Legal(db, acts) && Admissible(Replay(db, acts), a)
  {
    assert (acts + [a])[..|acts|] == acts;
  }

  /** The global invariant holds in every reachable state. */
  lemma {:induction false} ReachableInvariant(acts: seq<Action>)
    requires Legal(EMPTY, acts)
    ensures MoneyInv(Replay(EMPTY, acts))
  {
    if acts == [] {
      EmptyInv();
    } else {
      var front := acts[..|acts| - 1];
      ReachableInvariant(front);
      StepKeepsInvariant(Replay(EMPTY, front), acts[|acts| - 1]);
    }
  }

  lemma {:induction false} ReachableSequenced(acts: seq<Action>)
    ensures Sequenced(Replay(EMPTY, acts))
  {
    if acts != [] {
      var db := Replay(EMPTY, acts[..|acts| - 1]);
      var after := Step(db, acts[|acts| - 1]).0;
      ReachableSequenced(acts[..|acts| - 1]);
      StepFits(db, acts[|acts| - 1]);
    }
  }

  // ---- settlements and refunds of one payment ---------------------------------------

  /** How often a payment was settled, that is, reported as approved, credited or recorded. */
  function Settles(os: seq<Outcome>, id: PaymentId): nat {
    if os == [] then 0
    else Settles(os[..|os| - 1], id) + if os[|os| - 1].Settlement? && os[|os| - 1].payment == id then 1 else 0
  }

  function Refunds(os: seq<Outcome>, id: PaymentId): nat {
    if os == [] then 0
    else Refunds(os[..|os| - 1], id) + if os[|os| - 1].Reversal? && os[|os| - 1].payment == id then 1 else 0
  }

  function IsApproved(db: Db, id: PaymentId): int {
    if id in db.payments && db.payments[id].status == Approved then 1 else 0
  }

  /** What a report means for the status of one payment. */
  lemma StatusStep(db: Db, a: Action, id: PaymentId)
    requires Sequenced(db)
    ensures var (after, o) := Step(db, a);
            IsApproved(after, id) == IsApproved(db, id)
              + (if o.Settlement? && o.payment == id then 1 else 0)
              - (if o.Reversal? && o.payment == id then 1 else 0)
  {
    hide Retire, SweepUsers, InvoiceClash, ChargeSeen;
  }

  /**
   * Settlements minus refunds is 1 while the payment is approved and 0 otherwise,
   * in every run: no interleaving of approvals, verifications, rejections,
   * expiries and refunds settles a payment that is settled already.
   */
  lemma {:induction false} SettlementsMinusRefunds(acts: seq<Action>, id: PaymentId)
    ensures Settles(Outcomes(EMPTY, acts), id) - Refunds(Outcomes(EMPTY, acts), id) ==
              IsApproved(Replay(EMPTY, acts), id)
  {
    if acts != [] {
      var front, a := acts[..|acts| - 1], acts[|acts| - 1];
      SettlementsMinusRefunds(front, id);
      ReachableSequenced(front);
      StatusStep(Replay(EMPTY, front), a, id);
      var os := Outcomes(EMPTY, front);
      assert Outcomes(EMPTY, acts)[..|os|] == os;
    }
  }

  /** The row remembers a refund for good, whatever happens to its status later. */
  predicate Marked(db: Db, id: PaymentId) {
    id in db.payments && db.payments[id].refundedAt.Some?
  }

  lemma MarkedStep(db: Db, a: Action, id: PaymentId)
    requires Sequenced(db)
    ensures var (after, o) := Step(db, a); Marked(after, id) <==> Marked(db, id) || (o.Reversal? && o.payment == id)
  {
    hide Retire, SweepUsers, InvoiceClash, ChargeSeen;
  }

  /** In every run a payment has been refunded exactly if its row says when. */
  lemma {:induction false} RefundedIffMarked(acts: seq<Action>, id: PaymentId)
    ensures Refunds(Outcomes(EMPTY, acts), id) > 0 <==> Marked(Replay(EMPTY, acts), id)
  {
    if acts != [] {
      hide Step, Marked;
      var front, a := acts[..|acts| - 1], acts[|acts| - 1];
      RefundedIffMarked(front, id);
      ReachableSequenced(front);
      MarkedStep(Replay(EMPTY, front), a, id);
      CountSnoc(Outcomes(EMPTY, front), Step(Replay(EMPTY, front), a).1, id);
    } else {
      assert !Marked(EMPTY, id);
    }
  }

  /** A transaction settles the payment although it has been refunded before. */
  predicate SettlesAgain(db: Db, a: Action, id: PaymentId) {
    var o := Step(db, a).1;
    o.Settlement? && o.payment == id && Marked(db, id)
  }

  /** A settlement is a repeated one if and only if the row it settles is marked as refunded. */
  lemma SettledBeforeIffMarked(acts: seq<Action>, a: Action, id: PaymentId)
    requires var o := Step(Replay(EMPTY, acts), a).1; o.Settlement? && o.payment == id
    ensures Settles(Outcomes(EMPTY, acts), id) > 0 <==> Marked(Replay(EMPTY, acts), id)
  {
    hide Step, Marked;
    ReachableSequenced(acts);
    SettlementsMinusRefunds(acts, id);
    RefundedIffMarked(acts, id);
    NotApprovedWhenSettled(Replay(EMPTY, acts), a, id);
  }

  lemma NotApprovedWhenSettled(db: Db, a: Action, id: PaymentId)
    requires Sequenced(db)
    requires var o := Step(db, a).1; o.Settlement? && o.payment == id
    ensures IsApproved(db, id) == 0
  {
    hide Retire, SweepUsers, InvoiceClash, ChargeSeen;
  }

  ghost predicate SomeSettlesAgain(acts: seq<Action>, id: PaymentId) {
    exists i :: 0 <= i < |acts| && SettlesAgain(Replay(EMPTY, acts[..i]), acts[i], id)
  }

  lemma SettlesAgainSnoc(front: seq<Action>, a: Action, id: PaymentId)
    ensures SomeSettlesAgain(front + [a], id) <==>
            SomeSettlesAgain(front, id) || SettlesAgain(Replay(EMPTY, front), a, id)
  {
    hide SettlesAgain, Replay;
    var acts := front + [a];
    assert acts[..|front|] == front && acts[|front|] == a;
    assert forall i :: 0 <= i < |front| ==> acts[..i] == front[..i] && acts[i] == front[i];
    if i :| 0 <= i < |front| && SettlesAgain(Replay(EMPTY, front[..i]), front[i], id) {
      assert SettlesAgain(Replay(EMPTY, acts[..i]), acts[i], id);
    }
    if SettlesAgain(Replay(EMPTY, front), a, id) {
      assert SettlesAgain(Replay(EMPTY, acts[..|front|]), acts[|front|], id);
    }
  }

  /** The last transaction repeats a settlement exactly when it settles a payment that was settled before. */
  lemma LastSettlesAgain(front: seq<Action>, a: Action, id: PaymentId)
    ensures var o := Step(Replay(EMPTY, front), a).1;
            SettlesAgain(Replay(EMPTY, front), a, id) <==>
            o.Settlement? && o.payment == id && Settles(Outcomes(EMPTY, front), id) > 0
  {
    hide Step, Replay, Outcomes, Marked, Settles;
    var o := Step(Replay(EMPTY, front), a).1;
    if o.Settlement? && o.payment == id {
      SettledBeforeIffMarked(front, a, id);
    }
  }

  /**
   * A payment is credited more than once exactly when some transaction of the
   * run settles it after it has been refunded.
   */
  lemma {:induction false} CreditedTwiceIffSettledAfterRefund(acts: seq<Action>, id: PaymentId)
    ensures Settles(Outcomes(EMPTY, acts), id) > 1 <==> SomeSettlesAgain(acts, id)
    ensures Refunds(Outcomes(EMPTY, acts), id) == 0 ==> Settles(Outcomes(EMPTY, acts), id) <= 1
  {
    hide Step, Replay, Legal, Admissible, SettlesAgain;
    SettlementsMinusRefunds(acts, id);
    if acts != [] {
      hide SomeSettlesAgain, Outcomes, Settles, Refunds;
      var front, a := acts[..|acts| - 1], acts[|acts| - 1];
      assert acts == front + [a];
      CreditedTwiceIffSettledAfterRefund(front, id);
      ReplaySnoc(EMPTY, front, a);
      CountSnoc(Outcomes(EMPTY, front), Step(Replay(EMPTY, front), a).1, id);
      LastSettlesAgain(front, a, id);
      SettlesAgainSnoc(front, a, id);
    }
  }

  /** What takes a payment out of the refunded status: an approval, or a confirmed verification by its gateway. */
  predicate Reopens(p: Payment, id: PaymentId, a: Action) {
    || a == Approve(id)
    || (a.Verify? && a.payment == id && p.via == Gateway(a.provider) && a.answer.ok)
  }

  predicate IsRefunded(db: Db, id: PaymentId) {
    id in db.payments && db.payments[id].status == Status.Refunded
  }

  lemma ApproveReopens(db: Db, id: PaymentId, other: PaymentId)
    requires MoneyInv(db) && IsRefunded(db, id)
    ensures IsRefunded(ApproveTx(db, other).0, id) <==> other != id
  {
  }

  lemma VerifyReopens(db: Db, id: PaymentId, other: PaymentId, provider: string, answer: Answer)
    requires MoneyInv(db) && IsRefunded(db, id)
    ensures IsRefunded(VerifyTx(db, other, provider, answer).0, id) <==>
            !(other == id && db.payments[id].via == Gateway(provider) && answer.ok)
  {
    hide Mismatch;
  }

  /** No other transaction on payments touches a refunded one. */
  lemma OthersLeaveRefunded(db: Db, a: Action, id: PaymentId)
    requires Sequenced(db) && IsRefunded(db, id)
    requires a.Create? || a.Reject? || a.Expire? || a.RefundPayment? || a.StarsCharge?
    ensures IsRefunded(Step(db, a).0, id)
  {
    hide ChargeSeen, Retire;
  }

  lemma SalesLeavePayments(db: Db, a: Action)
    requires a.Register? || a.BuyPlan? || a.BuyMedia? || a.BuyBot? || a.RenewBot? || a.SweepPlans? || a.RecordInvoice?
    ensures Step(db, a).0.payments == db.payments
  {
    hide InvoiceClash, Retire, SweepUsers;
  }

  /** Refunded stays refunded through exactly the transactions that do not reopen it. */
  lemma RefundedUnlessReopened(db: Db, a: Action, id: PaymentId)
    requires MoneyInv(db) && Sequenced(db) && IsRefunded(db, id)
    ensures IsRefunded(Step(db, a).0, id) <==> !Reopens(db.payments[id], id, a)
  {
    hide MoneyInv, Sequenced, ApproveTx, VerifyTx, RejectTx, ExpireTx, RefundTx, StarsTx, CreateTx, BuyPlanTx,
        BuyMediaTx, BuyBotTx, RenewBotTx, InvoiceTx;
    match a
    case Approve(other) => ApproveReopens(db, id, other);
    case Verify(other, provider, answer) => VerifyReopens(db, id, other, provider, answer);
    case Create(_, _, _, _, _) => OthersLeaveRefunded(db, a, id);
    case Reject(_) => OthersLeaveRefunded(db, a, id);
    case Expire(_) => OthersLeaveRefunded(db, a, id);
    case RefundPayment(_, _) => OthersLeaveRefunded(db, a, id);
    case StarsCharge(_, _, _, _) => OthersLeaveRefunded(db, a, id);
    case _ => SalesLeavePayments(db, a);
  }

  /** Refunded in every state of the run after `acts`. */
  ghost predicate StaysRefunded(acts: seq<Action>, more: seq<Action>, id: PaymentId) {
    forall k :: 0 <= k <= |more| ==> IsRefunded(Replay(EMPTY, acts + more[..k]), id)
  }

  ghost predicate NeverReopened(p: Payment, id: PaymentId, more: seq<Action>) {
    forall k :: 0 <= k < |more| ==> !Reopens(p, id, more[k])
  }

  lemma StaysLast(acts: seq<Action>, front: seq<Action>, id: PaymentId)
    requires StaysRefunded(acts, front, id)
    ensures IsRefunded(Replay(EMPTY, acts + front), id)
  {
    hide IsRefunded, Replay;
    assert front[..|front|] == front;
  }

  lemma StaysSnoc(acts: seq<Action>, front: seq<Action>, a: Action, id: PaymentId)
    ensures StaysRefunded(acts, front + [a], id) <==>
            StaysRefunded(acts, front, id) && IsRefunded(Replay(EMPTY, acts + front + [a]), id)
  {
    hide IsRefunded, Replay;
    var more := front + [a];
    assert acts + more[..|more|] == acts + front + [a];
    forall k | 0 <= k <= |front| ensures acts + more[..k] == acts + front[..k] {
      assert more[..k] == front[..k];
    }
    if StaysRefunded(acts, more, id) {
      forall k | 0 <= k <= |front| ensures IsRefunded(Replay(EMPTY, acts + front[..k]), id) {
        assert IsRefunded(Replay(EMPTY, acts + more[..k]), id);
      }
      assert IsRefunded(Replay(EMPTY, acts + more[..|more|]), id);
    }
    if StaysRefunded(acts, front, id) && IsRefunded(Replay(EMPTY, acts + front + [a]), id) {
      forall k | 0 <= k <= |more| ensures IsRefunded(Replay(EMPTY, acts + more[..k]), id) {
        if k <= |front| {
          assert IsRefunded(Replay(EMPTY, acts + front[..k]), id);
        }
      }
    }
  }

  lemma NeverSnoc(p: Payment, id: PaymentId, front: seq<Action>, a: Action)
    ensures NeverReopened(p, id, front + [a]) <==> NeverReopened(p, id, front) && !Reopens(p, id, a)
  {
    hide Reopens;
    var more := front + [a];
    assert more[|front|] == a;
    assert forall k :: 0 <= k < |front| ==> more[k] == front[k];
  }

  /**
   * The exact condition under which a refund is final: from a refunded payment
   * `p` on, it stays refunded in every state of the run if and only if the run
   * holds no approval and no confirmed verification of it.
   */
  lemma {:induction false} RefundIsFinalIffNeverReopened(acts: seq<Action>, more: seq<Action>, id: PaymentId,
                                                         p: Payment)
    requires Legal(EMPTY, acts + more)
    requires id in Replay(EMPTY, acts).payments && Replay(EMPTY, acts).payments[id] == p && p.status == Status.Refunded
    ensures StaysRefunded(acts, more, id) <==> NeverReopened(p, id, more)
    decreases |more|
  {
    hide Step, Reopens;
    if more == [] {
      assert acts + more[..0] == acts;
    } else {
      var front, a := more[..|more| - 1], more[|more| - 1];
      assert (acts + more)[..|acts + more| - 1] == acts + front;
      RefundIsFinalIffNeverReopened(acts, front, id, p);
      assert acts + more[..|more|] == acts + more == acts + front + [a];
      if StaysRefunded(acts, front, id) {
        StaysLast(acts, front, id);
        LastStepDecides(acts, front, a, id, p);
      }
      StaysSnoc(acts, front, a, id);
      NeverSnoc(p, id, front, a);
      assert more == front + [a];
    }
  }

  lemma LastStepDecides(acts: seq<Action>, front: seq<Action>, a: Action, id: PaymentId, p: Payment)
    requires Legal(EMPTY, acts + front) && IsRefunded(Replay(EMPTY, acts + front), id)
    requires id in Replay(EMPTY, acts).payments && Replay(EMPTY, acts).payments[id] == p
    ensures IsRefunded(Replay(EMPTY, acts + front + [a]), id) <==> !Reopens(p, id, a)
  {
    hide Step;
    ReachableInvariant(acts + front);
    ReachableSequenced(acts + front);
    RefundedUnlessReopened(Replay(EMPTY, acts + front), a, id);
    ReplaySnoc(EMPTY, acts + front, a);
    ChannelStays(acts, front, id);
  }

  lemma {:induction false} ChannelStays(acts: seq<Action>, more: seq<Action>, id: PaymentId)
    requires id in Replay(EMPTY, acts).payments
    ensures id in Replay(EMPTY, acts + more).payments
    ensures Replay(EMPTY, acts + more).payments[id].via == Replay(EMPTY, acts).payments[id].via
    decreases |more|
  {
    hide Step;
    if more == [] {
      assert acts + more == acts;
    } else {
      var front, a := more[..|more| - 1], more[|more| - 1];
      ChannelStays(acts, front, id);
      assert acts + more == acts + front + [a];
      ReplaySnoc(EMPTY, acts + front, a);
      ReachableSequenced(acts + front);
      StepFits(Replay(EMPTY, acts + front), a);
    }
  }

  lemma ApproveSettles(db: Db, id: PaymentId)
    requires MoneyInv(db) && id in db.payments && db.payments[id].status != Approved
    ensures Step(db, Approve(id)).1 == Settlement(id, Abs(db.payments[id].amount))
  {
  }

  /** A refunded payment is not final: approving it again always settles it again. */
  lemma RefundedCanBeApproved(acts: seq<Action>, id: PaymentId)
    requires Legal(EMPTY, acts)
    requires id in Replay(EMPTY, acts).payments && Replay(EMPTY, acts).payments[id].status == Status.Refunded
    ensures Step(Replay(EMPTY, acts), Approve(id)).1 == Settlement(id, Abs(Replay(EMPTY, acts).payments[id].amount))
  {
    ReachableInvariant(acts);
    ApproveSettles(Replay(EMPTY, acts), id);
  }

  lemma VerifySettles(db: Db, id: PaymentId, provider: string, answer: Answer)
    requires MoneyInv(db) && id in db.payments && db.payments[id].via == Gateway(provider)
    requires db.payments[id].status != Approved && db.payments[id].status != Rejected
    requires answer.ok && !Mismatch(db.payments[id], answer)
    ensures Step(db, Verify(id, provider, answer)).1 == Settlement(id, Abs(db.payments[id].amount))
  {
    hide Mismatch;
  }

  /** Nor is it final for its gateway: a matching confirmation settles it again. */
  lemma RefundedCanBeVerified(acts: seq<Action>, id: PaymentId, provider: string, answer: Answer)
    requires Legal(EMPTY, acts) && IsRefunded(Replay(EMPTY, acts), id)
    requires var p := Replay(EMPTY, acts).payments[id];
             p.via == Gateway(provider) && answer.ok && !Mismatch(p, answer)
    ensures Step(Replay(EMPTY, acts), Verify(id, provider, answer)).1 ==
            Settlement(id, Abs(Replay(EMPTY, acts).payments[id].amount))
  {
    hide Step;
    ReachableInvariant(acts);
    VerifySettles(Replay(EMPTY, acts), id, provider, answer);
  }

  lemma CountSnoc(os: seq<Outcome>, o: Outcome, id: PaymentId)
    ensures Settles(os + [o], id) == Settles(os, id) + if o.Settlement? && o.payment == id then 1 else 0
    ensures Refunds(os + [o], id) == Refunds(os, id) + if o.Reversal? && o.payment == id then 1 else 0
  {
    assert (os + [o])[..|os|] == os;
  }

  /** One more transaction on a run whose last state and counts for payment 0 are known. */
  lemma Extend(acts: seq<Action>, db: Db, a: Action, after: Db, o: Outcome)
    requires Replay(EMPTY, acts) == db && Legal(EMPTY, acts) && !a.RecordInvoice? && Step(db, a) == (after, o)
    ensures Legal(EMPTY, acts + [a]) && Replay(EMPTY, acts + [a]) == after
    ensures var os, more := Outcomes(EMPTY, acts), Outcomes(EMPTY, acts + [a]);
            && Settles(more, 0) == Settles(os, 0) + (if o.Settlement? && o.payment == 0 then 1 else 0)
            && Refunds(more, 0) == Refunds(os, 0) + (if o.Reversal? && o.payment == 0 then 1 else 0)
  {
    ReplaySnoc(EMPTY, acts, a);
    CountSnoc(Outcomes(EMPTY, acts), o, 0);
  }

  /** A user with nothing but one top-up of 500, in the given status. */
  function OneTopUp(balance: int, ledger: seq<Entry>, status: Status, refundedAt: Option<int>): Db {
    EMPTY.(balance := map[7 := balance], plan := map[7 := Hold(FREE, None)], ledger := ledger,
           payments := map[0 := Payment(7, 500, Card, TopUp, status, None, None, refundedAt)], nextPayment := 1)
  }

  lemma ApproveOne(balance: nat, ledger: seq<Entry>, status: Status, at: Option<int>)
    requires status != Approved
    ensures Step(OneTopUp(balance, ledger, status, at), Approve(0)) ==
            (OneTopUp(balance + 500, ledger + [Entry(7, 500, Deposit, balance + 500, PaymentRef(0), Some(0))],
                      Approved, at),
             Settlement(0, 500))
  {
    var db := OneTopUp(balance, ledger, status, at);
    assert db.balance[7 := balance + 500] == map[7 := balance + 500];
    assert db.payments[0 := db.payments[0].(status := Approved)] == map[0 := db.payments[0].(status := Approved)];
  }

  lemma RefundOne(ledger: seq<Entry>, at: int)
    ensures Step(OneTopUp(500, ledger, Approved, None), RefundPayment(0, at)) ==
            (OneTopUp(0, ledger + [Entry(7, -500, Kind.Refund, 0, RefundRef(0), Some(0))], Status.Refunded, Some(at)),
             Reversal(0, 500))
  {
    var db := OneTopUp(500, ledger, Approved, None);
    var p := db.payments[0].(status := Status.Refunded, refundedAt := Some(at));
    assert db.balance[7 := 0] == map[7 := 0];
    assert db.payments[0 := p] == map[0 := p];
  }

  lemma FirstTopUp() returns (acts: seq<Action>)
    ensures Legal(EMPTY, acts) && Replay(EMPTY, acts) == OneTopUp(0, [], Pending, None)
    ensures Settles(Outcomes(EMPTY, acts), 0) == 0 && Refunds(Outcomes(EMPTY, acts), 0) == 0
  {
    var create := Create(7, 500, Card, TopUp, None);
    var registered := EMPTY.(balance := map[7 := 0], plan := map[7 := Hold(FREE, None)]);
    acts := [];
    Extend(acts, EMPTY, Register(7), registered, Other);
    acts := acts + [Register(7)];
    Extend(acts, registered, create, OneTopUp(0, [], Pending, None), Other);
    acts := acts + [create];
  }

  lemma ApproveRun(acts: seq<Action>, ledger: seq<Entry>, status: Status, at: Option<int>)
    requires Legal(EMPTY, acts) && Replay(EMPTY, acts) == OneTopUp(0, ledger, status, at) && status != Approved
    ensures var more := acts + [Approve(0)];
            && Legal(EMPTY, more)
            && Replay(EMPTY, more) ==
                OneTopUp(500, ledger + [Entry(7, 500, Deposit, 500, PaymentRef(0), Some(0))], Approved, at)
            && Settles(Outcomes(EMPTY, more), 0) == Settles(Outcomes(EMPTY, acts), 0) + 1
            && Refunds(Outcomes(EMPTY, more), 0) == Refunds(Outcomes(EMPTY, acts), 0)
  {
    ApproveOne(0, ledger, status, at);
    Extend(acts, OneTopUp(0, ledger, status, at), Approve(0),
           OneTopUp(500, ledger + [Entry(7, 500, Deposit, 500, PaymentRef(0), Some(0))], Approved, at),
               Settlement(0, 500));
  }

  lemma RefundRun(acts: seq<Action>, ledger: seq<Entry>)
    requires Legal(EMPTY, acts) && Replay(EMPTY, acts) == OneTopUp(500, ledger, Approved, None)
    ensures var more := acts + [RefundPayment(0, 9)];
            && Legal(EMPTY, more)
            && Replay(EMPTY, more) ==
               OneTopUp(0, ledger + [Entry(7, -500, Kind.Refund, 0, RefundRef(0), Some(0))], Status.Refunded, Some(9))
            && Settles(Outcomes(EMPTY, more), 0) == Settles(Outcomes(EMPTY, acts), 0)
            && Refunds(Outcomes(EMPTY, more), 0) == Refunds(Outcomes(EMPTY, acts), 0) + 1
  {
    RefundOne(ledger, 9);
    Extend(acts, OneTopUp(500, ledger, Approved, None), RefundPayment(0, 9),
           OneTopUp(0, ledger + [Entry(7, -500, Kind.Refund, 0, RefundRef(0), Some(0))], Status.Refunded, Some(9)),
           Reversal(0, 500));
  }

  /** Such a run exists: a top-up that is approved, refunded and approved again. */
  lemma RefundedIsNotTerminal() returns (acts: seq<Action>)
    ensures Legal(EMPTY, acts)
    ensures 0 in Replay(EMPTY, acts).payments && Replay(EMPTY, acts).payments[0].status == Approved
    ensures Settles(Outcomes(EMPTY, acts), 0) == 2 && Refunds(Outcomes(EMPTY, acts), 0) == 1
  {
    hide Step, Replay, Outcomes, Settles, Refunds, Legal;
    acts := FirstTopUp();
    var l1 := [Entry(7, 500, Deposit, 500, PaymentRef(0), Some(0))];
    var l2 := l1 + [Entry(7, -500, Kind.Refund, 0, RefundRef(0), Some(0))];
    ApproveRun(acts, [], Pending, None);
    RefundRun(acts + [Approve(0)], l1);
    ApproveRun(acts + [Approve(0)] + [RefundPayment(0, 9)], l2, Status.Refunded, Some(9));
    acts := acts + [Approve(0)] + [RefundPayment(0, 9)] + [Approve(0)];
  }

  // ---- money of one payment -------------------------------------------------------------

  /** What the services reported as moved for one payment. */
  function Reported(o: Outcome, id: PaymentId): int {
    match o
    case Settlement(p, credited) => if p == id then credited else 0
    case Reversal(p, debited) => if p == id then -debited else 0
    case _ => 0
  }

  function ReportedSum(os: seq<Outcome>, id: PaymentId): int {
    if os == [] then 0 else ReportedSum(os[..|os| - 1], id) + Reported(os[|os| - 1], id)
  }

  lemma ReportStep(db: Db, a: Action, id: PaymentId)
    requires Sequenced(db)
    ensures var (after, o) := Step(db, a); Sum(Share(Posted(db, after), OfPayment(id))) == Reported(o, id)
  {
  }

  /** The ledger rows of a payment add up to what was reported for it. */
  lemma {:induction false} LedgerMatchesReports(acts: seq<Action>, id: PaymentId)
    ensures Sum(Amounts(Replay(EMPTY, acts).ledger, OfPayment(id))) == ReportedSum(Outcomes(EMPTY, acts), id)
  {
    if acts != [] {
      var front, a := acts[..|acts| - 1], acts[|acts| - 1];
      var db := Replay(EMPTY, front);
      var after := Step(db, a).0;
      LedgerMatchesReports(front, id);
      ReachableSequenced(front);
      StepFits(db, a);
      ReportStep(db, a, id);
      AmountsPosting(db.ledger, Posted(db, after), OfPayment(id));
      var os := Outcomes(EMPTY, front);
      assert Outcomes(EMPTY, acts)[..|os|] == os;
    }
  }

  /** The wallet holds a top-up's amount while the top-up is approved, and nothing of it otherwise. */
  lemma TopUpIsWorthItsAmount(acts: seq<Action>, id: PaymentId)
    requires Legal(EMPTY, acts)
    requires id in Replay(EMPTY, acts).payments && Replay(EMPTY, acts).payments[id].intent == TopUp
    ensures var db := Replay(EMPTY, acts);
            && Sum(Amounts(db.ledger, OfPayment(id))) == IsApproved(db, id) * Abs(db.payments[id].amount)
            && ReportedSum(Outcomes(EMPTY, acts), id) == IsApproved(db, id) * Abs(db.payments[id].amount)
  {
    ReachableInvariant(acts);
    LedgerMatchesReports(acts, id);
  }

  /** A Stars charge is recorded with its price; every other settlement credits the amount without its sign. */
  predicate DepositsItsAmount(p: Payment) {
    p.intent.PlanIntent? && (p.via == Stars ==> p.amount >= 0)
  }

  /** A settlement credits the payment's amount; a refund of a plan payment moves no money. */
  lemma PlanReportStep(db: Db, a: Action, id: PaymentId)
    requires Sequenced(db)
    requires var after := Step(db, a).0; id in after.payments && DepositsItsAmount(after.payments[id])
    ensures var (after, o) := Step(db, a);
            && (o.Settlement? && o.payment == id ==> o.credited == Abs(after.payments[id].amount))
            && (o.Reversal? && o.payment == id ==> o.debited == 0)
  {
    hide SweepUsers, InvoiceClash, ChargeSeen;
  }

  lemma PlanCount(os: seq<Outcome>, o: Outcome, id: PaymentId, amount: int)
    requires ReportedSum(os, id) == Settles(os, id) * amount
    requires o.Settlement? && o.payment == id ==> o.credited == amount
    requires o.Reversal? && o.payment == id ==> o.debited == 0
    ensures ReportedSum(os + [o], id) == Settles(os + [o], id) * amount
  {
    assert (os + [o])[..|os|] == os;
  }

  lemma {:induction false} NothingReported(acts: seq<Action>, id: PaymentId)
    requires id !in Replay(EMPTY, acts).payments
    ensures ReportedSum(Outcomes(EMPTY, acts), id) == 0 && Settles(Outcomes(EMPTY, acts), id) == 0
  {
    if acts != [] {
      var front, a := acts[..|acts| - 1], acts[|acts| - 1];
      var os := Outcomes(EMPTY, front);
      ReachableSequenced(front);
      StepFits(Replay(EMPTY, front), a);
      NothingReported(front, id);
      NotReported(Replay(EMPTY, front), a, id);
      assert Outcomes(EMPTY, acts)[..|os|] == os;
    }
  }

  lemma NotReported(db: Db, a: Action, id: PaymentId)
    requires id !in Step(db, a).0.payments
    ensures var o := Step(db, a).1; !(o.Settlement? && o.payment == id) && !(o.Reversal? && o.payment == id)
  {
  }

  /**
   * A payment made for a plan, in Stars or otherwise, has left its amount in the
   * wallet once for each settlement, refunds or not: refunding it takes the plan
   * away and no money.
   */
  lemma {:induction false} PlanPaymentKeepsItsDeposits(acts: seq<Action>, id: PaymentId)
    requires id in Replay(EMPTY, acts).payments
    requires DepositsItsAmount(Replay(EMPTY, acts).payments[id])
    ensures ReportedSum(Outcomes(EMPTY, acts), id) ==
            Settles(Outcomes(EMPTY, acts), id) * Abs(Replay(EMPTY, acts).payments[id].amount)
  {
    var front, a := acts[..|acts| - 1], acts[|acts| - 1];
    var db, os := Replay(EMPTY, front), Outcomes(EMPTY, front);
    ReachableSequenced(front);
    StepFits(db, a);
    PlanReportStep(db, a, id);
    if id in db.payments {
      PlanPaymentKeepsItsDeposits(front, id);
    } else {
      NothingReported(front, id);
    }
    PlanCount(os, Step(db, a).1, id, Abs(Replay(EMPTY, acts).payments[id].amount));
  }

  // ---- conservation ---------------------------------------------------------------------

  /** Money that came in from outside, less top-ups given back. */
  function Inflow(o: Outcome): int {
    match o
    case Settlement(_, credited) => credited
    case Reversal(_, debited) => -debited
    case _ => 0
  }

  function InflowSum(os: seq<Outcome>): int {
    if os == [] then 0 else InflowSum(os[..|os| - 1]) + Inflow(os[|os| - 1])
  }

  /** Prices of the renewals, which leave no row of their own. */
  function Renewal(o: Outcome): int {
    if o.Sale? && o.grant.RenewalGrant? then o.price else 0
  }

  function RenewalSum(os: seq<Outcome>): int {
    if os == [] then 0 else RenewalSum(os[..|os| - 1]) + Renewal(os[|os| - 1])
  }

  function SubsTotal(subs: seq<Sub>): int {
    if subs == [] then 0 else SubsTotal(subs[..|subs| - 1]) + subs[|subs| - 1].paid
  }

  function BotPrices(tenants: map<BotId, Tenant>): map<BotId, int> {
    map b | b in tenants :: tenants[b].paid
  }

  /** The prices of all the grants in the tables. */
  ghost function Granted(db: Db): int {
    SumMap(db.media) + SumMap(BotPrices(db.tenants)) + SubsTotal(db.subs)
  }

  lemma {:induction false} RetireKeepsTotal(subs: seq<Sub>, users: set<UserId>)
    ensures SubsTotal(Retire(subs, users)) == SubsTotal(subs)
  {
    if subs != [] {
      var retired := Retire(subs, users);
      assert retired[..|retired| - 1] == Retire(subs[..|subs| - 1], users);
      RetireKeepsTotal(subs[..|subs| - 1], users);
    }
  }

  /** A sale adds its price to exactly one grant table, or is a renewal; nothing else adds any. */
  ghost predicate GrantShape(db: Db, after: Db, o: Outcome) {
    match o
    case Sale(MediaGrant(m, u), price) =>
      && (m, u) !in db.media && after.media == db.media[(m, u) := price]
      && BotPrices(after.tenants) == BotPrices(db.tenants) && after.subs == db.subs
    case Sale(BotGrant(b), price) =>
      && b !in db.tenants && BotPrices(after.tenants) == BotPrices(db.tenants)[b := price]
      && after.media == db.media && after.subs == db.subs
    case Sale(PlanGrant(_, _), price) =>
      && after.media == db.media && after.tenants == db.tenants
      && exists s :: after.subs == db.subs + [s] && s.paid == price
    case _ =>
      && after.media == db.media && BotPrices(after.tenants) == BotPrices(db.tenants)
      && exists users :: after.subs == Retire(db.subs, users)
  }

  lemma PlanSale(db: Db, u: UserId, key: string, price: int, at: int, expires: Option<int>)
    ensures GrantShape(db, BuyPlanTx(db, u, key, price, at, expires).0, BuyPlanTx(db, u, key, price, at, expires).1)
  {
    RetireNone(db.subs);
    if BuyPlanTx(db, u, key, price, at, expires).1 != Refusal {
      assert BuyPlanTx(db, u, key, price, at, expires).0.subs ==
          db.subs + [Sub(u, key, at, expires, true, Paid(price))];
    }
  }

  lemma MediaSale(db: Db, m: MediaId, u: UserId, price: int)
    ensures GrantShape(db, BuyMediaTx(db, m, u, price).0, BuyMediaTx(db, m, u, price).1)
  {
    RetireNone(db.subs);
  }

  lemma BotSale(db: Db, b: BotId, owner: UserId, price: int, expires: Option<int>)
    ensures GrantShape(db, BuyBotTx(db, b, owner, price, expires).0, BuyBotTx(db, b, owner, price, expires).1)
  {
    RetireNone(db.subs);
  }

  lemma RenewalSale(db: Db, b: BotId, owner: UserId, price: int, expires: Option<int>)
    ensures GrantShape(db, RenewBotTx(db, b, owner, price, expires).0, RenewBotTx(db, b, owner, price, expires).1)
  {
    RetireNone(db.subs);
  }

  lemma SaleStep(db: Db, a: Action)
    requires a.BuyPlan? || a.BuyMedia? || a.BuyBot? || a.RenewBot?
    ensures GrantShape(db, Step(db, a).0, Step(db, a).1)
  {
    hide GrantShape, BuyPlanTx, BuyMediaTx, BuyBotTx, RenewBotTx;
    match a
    case BuyPlan(u, key, price, at, expires) => PlanSale(db, u, key, price, at, expires);
    case BuyMedia(m, u, price) => MediaSale(db, m, u, price);
    case BuyBot(b, owner, price, expires) => BotSale(db, b, owner, price, expires);
    case RenewBot(b, owner, price, expires) => RenewalSale(db, b, owner, price, expires);
  }

  lemma NoSaleStep(db: Db, a: Action)
    requires !(a.BuyPlan? || a.BuyMedia? || a.BuyBot? || a.RenewBot?)
    ensures var (after, o) := Step(db, a); !o.Sale? && after.media == db.media && after.tenants == db.tenants
  {
  }

  lemma RetiredOnly(db: Db, a: Action)
    requires !(a.BuyPlan? || a.BuyMedia? || a.BuyBot? || a.RenewBot?)
    ensures exists users :: Step(db, a).0.subs == Retire(db.subs, users)
  {
    RetireNone(db.subs);
    var subs := Step(db, a).0.subs;
    if a.SweepPlans? {
      assert subs == Retire(db.subs, a.users);
    } else if a.RefundPayment? && a.payment in db.payments {
      assert subs == Retire(db.subs, {}) || subs == Retire(db.subs, {db.payments[a.payment].user});
    } else {
      assert subs == Retire(db.subs, {});
    }
  }

  lemma GrantStep(db: Db, a: Action)
    ensures GrantShape(db, Step(db, a).0, Step(db, a).1)
  {
    if a.BuyPlan? || a.BuyMedia? || a.BuyBot? || a.RenewBot? {
      SaleStep(db, a);
    } else {
      NoSaleStep(db, a);
      RetiredOnly(db, a);
    }
  }

  lemma GrantedStep(db: Db, after: Db, o: Outcome)
    requires GrantShape(db, after, o)
    ensures Granted(after) == Granted(db) + if o.Sale? && !o.grant.RenewalGrant? then o.price else 0
  {
    match o
    case Sale(MediaGrant(m, u), price) => SumMapUpdate(db.media, (m, u), price);
    case Sale(BotGrant(b), price) => SumMapUpdate(BotPrices(db.tenants), b, price);
    case Sale(PlanGrant(_, _), price) =>
      var s :| after.subs == db.subs + [s] && s.paid == price;
      assert after.subs[..|after.subs| - 1] == db.subs;
    case _ =>
      var users :| after.subs == Retire(db.subs, users);
      RetireKeepsTotal(db.subs, users);
  }

  /** The amount posted is the amount reported. */
  lemma FlowStep(db: Db, a: Action)
    ensures var (after, o) := Step(db, a);
            (if Posted(db, after).Some? then Posted(db, after).value.amount else 0)
              == Inflow(o) - if o.Sale? then o.price else 0
  {
  }

  lemma BalancesStep(db: Db, after: Db, posted: Option<Entry>)
    requires LedgerFits(db, after, posted)
    ensures SumMap(after.balance) == SumMap(db.balance) + if posted.Some? then posted.value.amount else 0
  {
    match posted
    case Some(e) => SumMapUpdate(db.balance, e.user, e.balanceAfter);
    case None =>
      if after.balance != db.balance {
        var u :| u !in db.balance && after.balance == db.balance[u := 0];
        SumMapUpdate(db.balance, u, 0);
      }
  }

  /**
   * Conservation: all balances together are what payments brought in, less
   * refunded top-ups, less the prices of all the plans, files and bots in the
   * tables and of the renewals.
   */
  lemma {:induction false} Conservation(acts: seq<Action>)
    ensures var db, os := Replay(EMPTY, acts), Outcomes(EMPTY, acts);
            SumMap(db.balance) == InflowSum(os) - Granted(db) - RenewalSum(os)
  {
    if acts != [] {
      var front, a := acts[..|acts| - 1], acts[|acts| - 1];
      var db, os := Replay(EMPTY, front), Outcomes(EMPTY, front);
      var (after, o) := Step(db, a);
      Conservation(front);
      ReachableSequenced(front);
      StepFits(db, a);
      BalancesStep(db, after, Posted(db, after));
      FlowStep(db, a);
      GrantStep(db, a);
      GrantedStep(db, after, o);
      assert Outcomes(EMPTY, acts) == os + [o] && (os + [o])[..|os|] == os;
    }
  }

  // ---- charges and grants -----------------------------------------------------------------

  /** Charge and grant are inseparable and happen once: what that means for the tables. */
  ghost predicate ChargesMatchGrants(db: Db) {
    && (forall m: MediaId, u: UserId ::
          if (m, u) in db.media
          then Amounts(db.ledger, OfMedia(m, u)) == [-db.media[(m, u)]]
          else Amounts(db.ledger, OfMedia(m, u)) == [])
    && (forall b: BotId ::
          if b in db.tenants && db.tenants[b].paid > 0
          then Amounts(db.ledger, OfBotSale(b)) == [-db.tenants[b].paid]
          else Amounts(db.ledger, OfBotSale(b)) == [])
    && (forall u: UserId, key: string :: Amounts(db.ledger, OfPlan(u, key)) == SubPrices(db.subs, u, key))
  }

  lemma GrantsMatch(db: Db)
    requires MoneyInv(db)
    ensures ChargesMatchGrants(db)
  {
  }

  /** In every reachable state, charge and grant are inseparable and happen once. */
  lemma ChargeIffGrant(acts: seq<Action>)
    requires Legal(EMPTY, acts)
    ensures ChargesMatchGrants(Replay(EMPTY, acts))
  {
    ReachableInvariant(acts);
    GrantsMatch(Replay(EMPTY, acts));
  }

  /** In every reachable state, each balance is its ledger's sum and each row shows the running balance. */
  lemma LedgerIsTheBalance(acts: seq<Action>, u: UserId)
    requires Legal(EMPTY, acts)
    requires u in Replay(EMPTY, acts).balance
    ensures var db := Replay(EMPTY, acts);
            && 0 <= db.balance[u] == Sum(Amounts(db.ledger, OfUser(u)))
            && forall i :: 0 <= i < |db.ledger| && db.ledger[i].user == u ==>
                 0 <= db.ledger[i].balanceAfter == Sum(Amounts(db.ledger[..i + 1], OfUser(u)))
  {
    ReachableInvariant(acts);
    RunningNonNegative(acts);
  }

  lemma {:induction false} RunningNonNegative(acts: seq<Action>)
    ensures forall e :: e in Replay(EMPTY, acts).ledger ==> 0 <= e.balanceAfter
  {
    if acts != [] {
      var front := acts[..|acts| - 1];
      RunningNonNegative(front);
      ReachableSequenced(front);
      StepFits(Replay(EMPTY, front), acts[|acts| - 1]);
    }
  }

  /** In every reachable state the invoice numbers are 1..n and no source has two invoices. */
  lemma InvoicesAreNumbered(acts: seq<Action>)
    requires Legal(EMPTY, acts)
    ensures var invoices := Replay(EMPTY, acts).invoices;
            && (forall i :: 0 <= i < |invoices| ==> invoices[i].number == i + 1)
            && (forall i, j ::
                0 <= i < |invoices| && 0 <= j < |invoices| && invoices[i].source == invoices[j].source ==> i == j)
            && (forall i :: 0 <= i < |invoices| ==> Backed(Replay(EMPTY, acts), invoices[i].source, invoices[i].amount))
  {
    ReachableInvariant(acts);
  }
}
