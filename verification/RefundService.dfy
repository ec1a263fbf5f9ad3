/** app/services/refund_service.py: reverse a settled payment. */
module RefundService {
  import opened Wrappers
  import opened Plans
  import opened MoneyState
  import opened MoneyLaws
  import opened MoneyRuns
  import opened Sessions
  import opened WalletService
  import opened InvoiceService

  datatype RefundReply = RefundedNow | AlreadyRefunded | NotSettled | Unknown | Short | Broken

  function RefundedRow(p: Payment, at: int): Payment {
    p.(status := Status.Refunded, refundedAt := Some(at))
  }

  /** What a refund takes out of the wallet. */
  function Debited(p: Payment): int {
    if p.intent == TopUp then Abs(p.amount) else 0
  }

  lemma RefundTopUpWrites(db: Db, id: PaymentId, at: int)
    requires id in db.payments && db.payments[id].status == Approved && db.payments[id].intent == TopUp
    requires db.payments[id].user in db.balance && 0 <= db.balance[db.payments[id].user] - Abs(db.payments[id].amount)
    ensures var p := db.payments[id];
            var w := WithMove(IDLE.(lockedPayments := {id}), p.user, db.balance[p.user], -Abs(p.amount), Kind.Refund,
                              RefundRef(id), Some(id))
                     .(payment := Some((id, RefundedRow(p, at))));
            && !Violates(db, w)
            && Step(db, RefundPayment(id, at)) == (Written(db, w), Reversal(id, Debited(p)))
            && Backed(Written(db, w), FromRefund(id), p.amount) && p.user in Written(db, w).balance
            && id in Written(db, w).payments && Written(db, w).payments[id] == RefundedRow(p, at)
  {
  }

  /** The writes of a revoked plan, if the user still holds that very plan. */
  function WithRevocation(w: Tx, u: UserId, hold: Hold, key: string): Tx {
    if hold.plan == key then w.(plan := Some((u, Hold(FREE, None))), retire := Some(u)) else w
  }

  lemma RefundPlanWrites(db: Db, id: PaymentId, at: int)
    requires id in db.payments && db.payments[id].status == Approved && db.payments[id].intent.PlanIntent?
    requires db.payments[id].user in db.balance && db.payments[id].user in db.plan
    ensures var p := db.payments[id];
            var w := WithRevocation(IDLE.(lockedPayments := {id}, lockedUsers := {p.user}), p.user, db.plan[p.user],
                                    p.intent.key)
                     .(payment := Some((id, RefundedRow(p, at))));
            && !Violates(db, w)
            && Step(db, RefundPayment(id, at)) == (Written(db, w), Reversal(id, Debited(p)))
            && Backed(Written(db, w), FromRefund(id), p.amount) && p.user in Written(db, w).balance
            && id in Written(db, w).payments && Written(db, w).payments[id] == RefundedRow(p, at)
            && Written(db, w).balance == db.balance
  {
  }

  /** The user of a payment has plan columns. */
  lemma OwnerHold(db: Db, log: seq<Logged>, u: UserId)
    requires Consistent(db, log) && u in db.balance
    ensures u in db.plan
  {
    ConsistentInvariant(db, log);
  }

  /** Flush the reversal of a payment whose row is locked; the status flip rides along. */
  method Reverse(s: Session, id: PaymentId, at: int, ghost w: Tx) returns (r: Option<RefundReply>)
    requires s.Valid() && w == IDLE.(lockedPayments := {id}) && s.work == w
    requires id in s.db.payments && s.db.payments[id].status == Approved
    modifies s
    ensures s.Valid() && Later(old(s.db), s.db) && s.Done() == old(s.Done()) && old(s.log) <= s.log
    ensures id in s.db.payments && s.db.payments[id] == old(s.db).payments[id]
    ensures r.None? ==>
              && !Violates(s.db, s.work)
              && Step(s.db, RefundPayment(id, at)) == (Written(s.db, s.work), Reversal(id, Debited(s.db.payments[id])))
              && Backed(Written(s.db, s.work), FromRefund(id), s.db.payments[id].amount)
              && s.db.payments[id].user in Written(s.db, s.work).balance
              && id in Written(s.db, s.work).payments
              && Written(s.db, s.work).payments[id] == RefundedRow(s.db.payments[id], at)
    ensures r.Some? ==> r.value == Short || r.value == Broken
    ensures r == Some(Short) ==>
              var p := s.db.payments[id];
              p.intent == TopUp && p.user in s.db.balance && s.db.balance[p.user] < Abs(p.amount)
    ensures old(s.turns) == [] ==> s.turns == [] && r != Some(Broken) && s.db == old(s.db)
  {
    hide Consistent, MoneyInv, Later, Guarded, Step, Replay, Written, Violates, Backed, Mine;
    ghost var d0, l0 := s.db, s.log;
    var p := s.db.payments[id];
    PaymentOwner(s.db, s.log, id);
    ghost var d1;
    if p.intent == TopUp {
      var m := Apply(s, p.user, -Abs(p.amount), Kind.Refund, RefundRef(id), Some(id));
      LaterFrom(d0, l0, s.db, s.log, w);
      LockedPayment(d0, s.db, w, id);
      PaymentOwner(s.db, s.log, id);
      if !m.Moved? {
        return Some(if m.Insufficient? then Short else Broken);
      }
      d1 := s.db;
    } else {
      var ok := s.Pause();
      LaterFrom(d0, l0, s.db, s.log, w);
      LockedPayment(d0, s.db, w, id);
      if !ok {
        return Some(Broken);
      }
      PaymentOwner(s.db, s.log, id);
      OwnerHold(s.db, s.log, p.user);
      s.work := s.work.(lockedUsers := {p.user});
      s.work := WithRevocation(s.work, p.user, s.db.plan[p.user], p.intent.key);
      d1 := s.db;
    }
    s.work := s.work.(payment := Some((id, RefundedRow(p, at))));
    ghost var l1 := s.log;
    var ok := s.Pause();
    LaterFrom(d1, l1, s.db, s.log, s.work);
    LaterTrans(d0, d1, s.db);
    LockedPayment(d1, s.db, s.work, id);
    LockedUser(d1, s.db, s.work, p.user);
    if !ok {
      return Some(Broken);
    }
    if p.intent == TopUp {
      RefundTopUpWrites(s.db, id, at);
    } else {
      OwnerHold(s.db, s.log, p.user);
      RefundPlanWrites(s.db, id, at);
    }
    return None;
  }

  /**
   * Refund an approved payment. A top-up's amount is debited back or the refund
   * is refused; a plan payment loses its plan and moves no money. A call that
   * reports a refund has committed exactly one reversal.
   */
  method RefundNow(s: Session, id: PaymentId, at: int) returns (r: RefundReply)
    requires s.Valid() && s.work == IDLE
    modifies s
    ensures s.Valid() && s.work == IDLE && Later(old(s.db), s.db)
    ensures r.RefundedNow? ==>
              && id in s.db.payments
              && var p := s.db.payments[id];
                 DidAndInvoiced(old(s.Done()), s.Done(), Own(RefundPayment(id, at), Reversal(id, Debited(p))),
                                FromRefund(id), p.amount)
    ensures !r.RefundedNow? ==> s.Done() == old(s.Done())
    ensures r.Unknown? ==> id !in s.db.payments
    ensures r.AlreadyRefunded? ==> id in s.db.payments && s.db.payments[id].status == Status.Refunded
    ensures r.NotSettled? ==> id in s.db.payments && s.db.payments[id].status !in {Status.Refunded, Approved}
    ensures r.Short? ==>
              && id in s.db.payments && s.db.payments[id].intent == TopUp && s.db.payments[id].status == Approved
              && s.db.payments[id].user in s.db.balance
              && s.db.balance[s.db.payments[id].user] < Abs(s.db.payments[id].amount)
    ensures old(s.turns) == [] ==> s.turns == [] && !r.Broken? && (r.RefundedNow? || s.db == old(s.db))
  {
    hide Consistent, MoneyInv, Later, Guarded, Step, Replay, Written, Violates, Backed, Mine, Debited, DidAndInvoiced,
         AtMostInvoice, SameOrder, RefundedRow;
    var ok := s.Pause();
    LaterFrom(old(s.db), old(s.log), s.db, s.log, IDLE);
    if !ok {
      return Broken;
    }
    if id !in s.db.payments {
      return Unknown;
    }
    var p := s.db.payments[id];
    if p.status == Status.Refunded {
      return AlreadyRefunded;
    }
    if p.status != Approved {
      return NotSettled;
    }
    ghost var d1 := s.db;
    s.work := s.work.(lockedPayments := {id});
    var refused := Reverse(s, id, at, s.work);
    LaterTrans(old(s.db), d1, s.db);
    if refused.Some? {
      s.Rollback();
      return refused.value;
    }
    ConsistentInvariant(s.db, s.log);
    ghost var d2 := s.db;
    ok := s.Commit(RefundPayment(id, at));
    ConsistentLater(d2, RefundPayment(id, at), s.db);
    LaterTrans(old(s.db), d2, s.db);
    ghost var d3, done := s.db, s.Done();
    var _ := SafeRecord(s, FromRefund(id), p.user, p.amount);
    ThenInvoiced(old(s.Done()), done, s.Done(), Own(RefundPayment(id, at), Reversal(id, Debited(p))), FromRefund(id),
                 p.amount);
    LaterTrans(old(s.db), d3, s.db);
    LaterOrder(d3, s.db, id);
    SameDebit(p, s.db.payments[id], at);
    return RefundedNow;
  }

  lemma SameDebit(p: Payment, q: Payment, at: int)
    requires SameOrder(RefundedRow(p, at), q)
    ensures Debited(q) == Debited(p) && q.amount == p.amount
  {
  }
}
