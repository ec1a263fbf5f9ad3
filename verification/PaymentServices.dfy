/** app/services/wallet_service.py: the only writer of a balance. */
module WalletService {
  import opened Wrappers
  import opened MoneyState
  import opened MoneyLaws
  import opened MoneyRuns
  import opened Sessions

  datatype Reply = Moved(balance: int) | NoUser | Insufficient | Failed

  /** While the user row is locked, the balance read stays the committed one. */
  lemma ElapsedWeaker(d0: Db, l0: seq<Logged>, d1: Db, l1: seq<Logged>, strong: Tx, weak: Tx)
    requires Elapsed(d0, l0, d1, l1, strong)
    requires weak.lockedPayments <= strong.lockedPayments && weak.lockedUsers <= strong.lockedUsers
    ensures Elapsed(d0, l0, d1, l1, weak)
  {
  }

  /** The writes of one balance change, on top of the pending ones. */
  function WithMove(w: Tx, u: UserId, before: int, amount: int, kind: Kind, ref: Reference, p: Option<PaymentId>): Tx {
    w.(balance := Some((u, before + amount)),
       entry := Some(Entry(u, amount, kind, before + amount, ref, p)),
       lockedUsers := w.lockedUsers + {u})
  }

  /**
   * Lock the user row, move the balance and add the ledger row, leaving the
   * commit to the caller. While the lock is held the balance read stays the
   * committed one.
   */
  method Apply(s: Session, u: UserId, amount: int, kind: Kind, ref: Reference, p: Option<PaymentId>) returns (r: Reply)
    requires s.Valid() && s.work.balance == None && s.work.entry == None
    modifies s
    ensures s.Valid() && Elapsed(old(s.db), old(s.log), s.db, s.log, old(s.work))
    ensures r.Moved? ==>
              && u in s.db.balance && r.balance == s.db.balance[u] + amount >= 0
              && s.work == WithMove(old(s.work), u, s.db.balance[u], amount, kind, ref, p)
    ensures r.NoUser? ==> u !in s.db.balance
    ensures r.Insufficient? ==> u in s.db.balance && s.db.balance[u] + amount < 0
    ensures old(s.turns) == [] ==> s.db == old(s.db) && s.turns == [] && !r.Failed?
  {
    hide Consistent, Later, Guarded, Mine;
    ghost var w0 := s.work;
    ElapsedSame(s.db, s.log, w0);
    var ok := s.Pause();
    if !ok {
      return Failed;
    }
    if u !in s.db.balance {
      return Reply.NoUser;
    }
    var before := s.db.balance[u];
    if before + amount < 0 {
      return Reply.Insufficient;
    }
    s.work := WithMove(s.work, u, before, amount, kind, ref, p);
    ghost var d, l := s.db, s.log;
    ok := s.Pause();
    LockedUser(d, s.db, s.work, u);
    ElapsedWeaker(d, l, s.db, s.log, s.work, w0);
    ElapsedTrans(old(s.db), old(s.log), d, l, s.db, s.log, w0);
    if !ok {
      return Failed;
    }
    return Reply.Moved(before + amount);
  }
}

/** app/services/invoice_service.py: one receipt for each settled event. */
module InvoiceService {
  import opened Wrappers
  import opened MoneyState
  import opened MoneyLaws
  import opened MoneyRuns
  import opened Sessions
  import opened WalletService

  function BySource(invoices: seq<Invoice>, source: Source): Option<Invoice> {
    if invoices == [] then None
    else if invoices[|invoices| - 1].source == source then Some(invoices[|invoices| - 1])
    else BySource(invoices[..|invoices| - 1], source)
  }

  lemma {:induction false} BySourceFinds(invoices: seq<Invoice>, source: Source)
    ensures BySource(invoices, source).Some? <==> exists i :: 0 <= i < |invoices| && invoices[i].source == source
    ensures BySource(invoices, source).Some? ==>
              BySource(invoices, source).value in invoices && BySource(invoices, source).value.source == source
  {
    if invoices != [] {
      BySourceFinds(invoices[..|invoices| - 1], source);
    }
  }

  /** Nothing, or one invoice for `source`. */
  ghost predicate AtMostInvoice(own: seq<Own>, source: Source, amount: int) {
    own == [] ||
    (|own| == 1 && own[0].act.RecordInvoice? && own[0].act.source == source && own[0].act.amount == amount
     && own[0].out == Other)
  }

  /** `done`, and then at most an invoice for it. */
  ghost predicate DidAndInvoiced(before: seq<Own>, after: seq<Own>, done: Own, source: Source, amount: int) {
    && |before| < |after| && after[..|before|] == before && after[|before|] == done
    && AtMostInvoice(after[|before| + 1..], source, amount)
  }

  /** The commit of `done` and the attempt at its invoice after it. */
  lemma ThenInvoiced(before: seq<Own>, mid: seq<Own>, after: seq<Own>, done: Own, source: Source, amount: int)
    requires mid == before + [done] && mid <= after && AtMostInvoice(after[|mid|..], source, amount)
    ensures DidAndInvoiced(before, after, done, source, amount)
  {
  }

  lemma NothingToInvoice(before: seq<Own>, after: seq<Own>, done: Own, source: Source, amount: int)
    requires after == before + [done]
    ensures DidAndInvoiced(before, after, done, source, amount)
  {
  }

  lemma InvoiceWrites(db: Db, source: Source, u: UserId, amount: int, seen: int)
    requires u in db.balance
    ensures var w := IDLE.(invoice := Some(Invoice(source, seen + 1, u, amount)));
            && (Violates(db, w) <==> InvoiceClash(db.invoices, source, seen + 1))
            && Written(db, w) == db.(invoices := db.invoices + [w.invoice.value])
            && (!Violates(db, w) ==> Step(db, RecordInvoice(source, u, amount, seen)) == (Written(db, w), Other))
  {
  }

  lemma LaterKeeps(d0: Db, d1: Db, source: Source, amount: int, u: UserId)
    requires Later(d0, d1) && Backed(d0, source, amount) && u in d0.balance
    ensures Backed(d1, source, amount) && u in d1.balance
  {
  }

  /** The stale maximum a session may number its invoice from. */
  lemma StaleMaxAdmissible(d0: Db, l0: seq<Logged>, d1: Db, l1: seq<Logged>)
    requires Consistent(d0, l0) && Consistent(d1, l1) && Later(d0, d1)
    ensures 0 <= MaxNumber(d0.invoices) <= MaxNumber(d1.invoices)
  {
    ConsistentInvariant(d0, l0);
    ConsistentInvariant(d1, l1);
    MaxNumberIsCount(d0.invoices);
    MaxNumberIsCount(d1.invoices);
  }

  /** Read the highest number, insert with the next one, and let the unique constraints decide. */
  method Insert(s: Session, source: Source, u: UserId, amount: int) returns (r: Option<Invoice>, clash: bool)
    requires s.Valid() && s.work == IDLE
    requires Backed(s.db, source, amount) && u in s.db.balance
    modifies s
    ensures s.Valid() && s.work == IDLE && Later(old(s.db), s.db) && old(s.log) <= s.log
    ensures r.Some? ==>
              && r.value.source == source && s.db.invoices != [] && s.db.invoices[|s.db.invoices| - 1] == r.value
              && s.Done() == old(s.Done()) + [Own(RecordInvoice(source, u, amount, r.value.number - 1), Other)]
    ensures r.None? ==> s.Done() == old(s.Done())
    ensures old(s.turns) == [] ==> s.turns == [] && s.db.payments == old(s.db).payments
    ensures old(s.turns) == [] && BySource(old(s.db).invoices, source) == None ==> r.Some?
  {
    hide Consistent, MoneyInv, Later, Guarded, Step, Replay, Written, Violates, InvoiceClash, MaxNumber, BySource,
        Backed, Mine;
    ghost var d0, l0 := s.db, s.log;
    var seen := MaxNumber(s.db.invoices);
    s.work := s.work.(invoice := Some(Invoice(source, seen + 1, u, amount)));
    var ok := s.Pause();
    if !ok {
      s.Rollback();
      return None, false;
    }
    LaterKeeps(d0, s.db, source, amount, u);
    StaleMaxAdmissible(d0, l0, s.db, s.log);
    ConsistentInvariant(s.db, s.log);
    InvoiceWrites(s.db, source, u, amount, seen);
    ghost var d1 := s.db;
    ghost var a := RecordInvoice(source, u, amount, seen);
    if old(s.turns) == [] && BySource(d0.invoices, source) == None {
      NoClash(s.db, s.log, source);
    }
    ok := s.Commit(a);
    if !ok {
      s.Rollback();
      return None, true;
    }
    StepLater(d1, a);
    LaterTrans(d0, d1, s.db);
    return Some(Invoice(source, seen + 1, u, amount)), false;
  }

  lemma NoClash(db: Db, log: seq<Logged>, source: Source)
    requires Consistent(db, log)
    requires BySource(db.invoices, source) == None
    ensures !InvoiceClash(db.invoices, source, MaxNumber(db.invoices) + 1)
  {
    hide Consistent, BySource, MaxNumber;
    ConsistentInvariant(db, log);
    MaxNumberIsCount(db.invoices);
    BySourceFinds(db.invoices, source);
  }

  /**
   * Record the invoice of an event that has committed. The reads may be stale
   * by the time of the commit; a losing racer reports the row that won, if any.
   */
  method SafeRecord(s: Session, source: Source, u: UserId, amount: int) returns (r: Option<Invoice>)
    requires s.Valid() && s.work == IDLE
    requires Backed(s.db, source, amount) && u in s.db.balance
    modifies s
    ensures s.Valid() && s.work == IDLE && Later(old(s.db), s.db) && old(s.log) <= s.log
    ensures old(s.Done()) <= s.Done() && AtMostInvoice(s.Done()[|old(s.Done())|..], source, amount)
    ensures r.Some? ==> r.value in s.db.invoices && r.value.source == source
    ensures old(s.turns) == [] ==> s.turns == [] && r.Some? && s.db.payments == old(s.db).payments
  {
    hide Consistent, MoneyInv, Later, Guarded, Step, Replay, Written, Violates, InvoiceClash, MaxNumber, BySource,
        Backed, Mine;
    ghost var d0 := s.db;
    var ok := s.Pause();
    if !ok {
      return None;
    }
    var existing := BySource(s.db.invoices, source);
    BySourceFinds(s.db.invoices, source);
    if existing.Some? {
      return existing;
    }
    ghost var d1 := s.db;
    ok := s.Pause();
    LaterTrans(d0, d1, s.db);
    if !ok {
      return None;
    }
    LaterKeeps(d0, s.db, source, amount, u);
    ghost var d2 := s.db;
    var clash;
    r, clash := Insert(s, source, u, amount);
    LaterTrans(d0, d2, s.db);
    if clash {
      ghost var d3 := s.db;
      ok := s.Pause();
      LaterTrans(d0, d3, s.db);
      BySourceFinds(s.db.invoices, source);
      r := if ok then BySource(s.db.invoices, source) else None;
    }
  }
}

/** app/services/payment_service.py: top-up requests and their approval. */
module PaymentService {
  import opened Wrappers
  import opened MoneyState
  import opened MoneyLaws
  import opened MoneyRuns
  import opened Sessions
  import opened WalletService
  import opened InvoiceService

  datatype ApproveReply = ApprovedNow | Already | Unknown | Broken

  /** Insert a pending payment; `created` is the row's default timestamp. */
  method Create(s: Session, u: UserId, amount: int, via: Channel, intent: Intent, created: Option<int>)
    returns (id: Option<PaymentId>)
    requires s.Valid() && s.work == IDLE
    modifies s
    ensures s.Valid() && s.work == IDLE && Later(old(s.db), s.db)
    ensures id.None? ==> s.Done() == old(s.Done())
    ensures id.Some? ==>
              && s.Done() == old(s.Done()) + [Own(Action.Create(u, amount, via, intent, created), Other)]
              && id.value !in old(s.db).payments && id.value in s.db.payments
              && s.db.payments[id.value] == Payment(u, amount, via, intent, Pending, None, created, None)
    ensures old(s.turns) == [] ==> s.turns == [] && (id.Some? <==> u in old(s.db).balance)
  {
    hide Consistent, MoneyInv, Later, Guarded, Step, Replay, Written, Violates, Backed, Mine;
    s.work := s.work.(newPayment := Some(Payment(u, amount, via, intent, Pending, None, created, None)));
    var ok := s.Pause();
    LaterFrom(old(s.db), old(s.log), s.db, s.log, s.work);
    if !ok || u !in s.db.balance {
      s.Rollback();
      return None;
    }
    ConsistentInvariant(s.db, s.log);
    CreateWrites(s.db, u, amount, via, intent, created);
    ghost var d := s.db;
    ghost var a := Action.Create(u, amount, via, intent, created);
    id := Some(s.db.nextPayment);
    LaterNone(old(s.db), d, id.value);
    ok := s.Commit(a);
    ConsistentLater(d, a, s.db);
    LaterTrans(old(s.db), d, s.db);
  }

  lemma CreateWrites(db: Db, u: UserId, amount: int, via: Channel, intent: Intent, created: Option<int>)
    requires MoneyInv(db) && u in db.balance
    ensures var p := Payment(u, amount, via, intent, Pending, None, created, None);
            var w := IDLE.(newPayment := Some(p));
            && !Violates(db, w)
            && Step(db, Action.Create(u, amount, via, intent, created)) == (Written(db, w), Other)
            && db.nextPayment !in db.payments
            && db.nextPayment in Written(db, w).payments && Written(db, w).payments[db.nextPayment] == p
  {
  }

  lemma LaterNone(d0: Db, d1: Db, id: PaymentId)
    requires Later(d0, d1) && id !in d1.payments
    ensures id !in d0.payments
  {
  }

  datatype RejectReply = RejectedNow | NotPending | NotFound | Broken

  lemma RejectWrites(db: Db, id: PaymentId)
    requires id in db.payments && db.payments[id].status == Pending
    ensures var w := IDLE.(lockedPayments := {id}, payment := Some((id, db.payments[id].(status := Rejected))));
            && !Violates(db, w)
            && Step(db, Action.Reject(id)) == (Written(db, w), Other)
            && id in Written(db, w).payments && Written(db, w).payments[id].status == Rejected
  {
  }

  /** Reject a payment if it is still pending; any other payment is left alone. */
  method Reject(s: Session, id: PaymentId) returns (r: RejectReply)
    requires s.Valid() && s.work == IDLE
    modifies s
    ensures s.Valid() && s.work == IDLE && Later(old(s.db), s.db)
    ensures r.RejectedNow? ==>
              && s.Done() == old(s.Done()) + [Own(Action.Reject(id), Other)]
              && id in s.db.payments && s.db.payments[id].status == Rejected
    ensures !r.RejectedNow? ==> s.Done() == old(s.Done())
    ensures r.NotFound? ==> id !in s.db.payments
    ensures r.NotPending? ==> id in s.db.payments && s.db.payments[id].status != Pending
    ensures old(s.turns) == [] ==> s.turns == [] && !r.Broken? && (r.RejectedNow? || s.db == old(s.db))
  {
    hide Consistent, MoneyInv, Later, Guarded, Step, Replay, Written, Violates, Backed, Mine;
    var ok := s.Pause();
    LaterFrom(old(s.db), old(s.log), s.db, s.log, IDLE);
    if !ok {
      return RejectReply.Broken;
    }
    if id !in s.db.payments {
      return NotFound;
    }
    if s.db.payments[id].status != Pending {
      return NotPending;
    }
    s.work := s.work.(lockedPayments := {id}, payment := Some((id, s.db.payments[id].(status := Rejected))));
    ghost var d1, l1 := s.db, s.log;
    ok := s.Pause();
    LaterFrom(d1, l1, s.db, s.log, s.work);
    LaterTrans(old(s.db), d1, s.db);
    LockedPayment(d1, s.db, s.work, id);
    if !ok {
      s.Rollback();
      return RejectReply.Broken;
    }
    RejectWrites(s.db, id);
    ConsistentInvariant(s.db, s.log);
    ghost var d2 := s.db;
    ok := s.Commit(Action.Reject(id));
    ConsistentLater(d2, Action.Reject(id), s.db);
    LaterTrans(old(s.db), d2, s.db);
    return RejectedNow;
  }

  function ApprovedRow(p: Payment): Payment {
    p.(status := Approved)
  }

  lemma ApproveWrites(db: Db, id: PaymentId)
    requires id in db.payments && db.payments[id].status != Approved
    requires db.payments[id].user in db.balance && 0 <= db.balance[db.payments[id].user]
    ensures var p := db.payments[id];
            var w := WithMove(IDLE.(lockedPayments := {id}, payment := Some((id, ApprovedRow(p)))),
                              p.user, db.balance[p.user], Abs(p.amount), Deposit, PaymentRef(id), Some(id));
            && !Violates(db, w)
            && Step(db, Action.Approve(id)) == (Written(db, w), Settlement(id, Abs(p.amount)))
            && Backed(Written(db, w), FromPayment(id), p.amount) && p.user in Written(db, w).balance
            && id in Written(db, w).payments && Written(db, w).payments[id] == ApprovedRow(p)
  {
    var p := db.payments[id];
    var ledger := db.ledger +
        [Entry(p.user, Abs(p.amount), Deposit, db.balance[p.user] + Abs(p.amount), PaymentRef(id), Some(id))];
    assert ledger[|db.ledger|].payment == Some(id);
  }

  lemma AmountStays(p: Payment, q: Payment)
    requires SameOrder(ApprovedRow(p), q)
    ensures q.amount == p.amount
  {
  }

  /**
   * Approve a payment that is not approved yet. Exactly one settlement is
   * committed by a call that reports one, and nothing by any other call.
   */
  method Approve(s: Session, id: PaymentId) returns (r: ApproveReply)
    requires s.Valid() && s.work == IDLE
    modifies s
    ensures s.Valid() && s.work == IDLE && Later(old(s.db), s.db)
    ensures r.ApprovedNow? ==>
              && id in s.db.payments
              && var p := s.db.payments[id];
                 DidAndInvoiced(old(s.Done()), s.Done(), Own(Action.Approve(id), Settlement(id, Abs(p.amount))),
                                FromPayment(id), p.amount)
    ensures !r.ApprovedNow? ==> s.Done() == old(s.Done())
    ensures r.Unknown? ==> id !in s.db.payments
    ensures r.Already? ==> id in s.db.payments && s.db.payments[id].status == Approved
    ensures old(s.turns) == [] ==> s.turns == [] && !r.Broken? && (r.ApprovedNow? || s.db == old(s.db))
  {
    hide Consistent, MoneyInv, Later, Guarded, Step, Replay, Written, Violates, Backed, Mine, DidAndInvoiced,
         AtMostInvoice, SameOrder, ApprovedRow;
    var ok := s.Pause();
    LaterFrom(old(s.db), old(s.log), s.db, s.log, IDLE);
    if !ok {
      return ApproveReply.Broken;
    }
    if id !in s.db.payments {
      return Unknown;
    }
    var p := s.db.payments[id];
    if p.status == Approved {
      return Already;
    }
    PaymentOwner(s.db, s.log, id);
    ghost var d1, l1 := s.db, s.log;
    s.work := s.work.(lockedPayments := {id}, payment := Some((id, ApprovedRow(p))));
    ghost var w1 := s.work;
    var m := Apply(s, p.user, Abs(p.amount), Deposit, PaymentRef(id), Some(id));
    LaterFrom(d1, l1, s.db, s.log, w1);
    LaterTrans(old(s.db), d1, s.db);
    LockedPayment(d1, s.db, w1, id);
    PaymentOwner(s.db, s.log, id);
    if !m.Moved? {
      s.Rollback();
      return ApproveReply.Broken;
    }
    ghost var d2 := s.db;
    r := FinishApprove(s, id, p);
    LaterTrans(old(s.db), d2, s.db);
  }

  /** After the credit under both locks: the commit with the new status, and the receipt. */
  method FinishApprove(s: Session, id: PaymentId, p: Payment) returns (r: ApproveReply)
    requires s.Valid() && id in s.db.payments && s.db.payments[id] == p && p.status != Approved
    requires p.user in s.db.balance && 0 <= s.db.balance[p.user]
    requires s.work == WithMove(IDLE.(lockedPayments := {id}, payment := Some((id, ApprovedRow(p)))), p.user,
                                s.db.balance[p.user], Abs(p.amount), Deposit, PaymentRef(id), Some(id))
    modifies s
    ensures s.Valid() && s.work == IDLE && Later(old(s.db), s.db)
    ensures r.ApprovedNow? || r.Broken?
    ensures r.ApprovedNow? ==>
              && id in s.db.payments && s.db.payments[id].amount == p.amount
              && DidAndInvoiced(old(s.Done()), s.Done(), Own(Action.Approve(id), Settlement(id, Abs(p.amount))),
                                FromPayment(id), p.amount)
    ensures !r.ApprovedNow? ==> s.Done() == old(s.Done())
    ensures old(s.turns) == [] ==> s.turns == [] && r.ApprovedNow?
  {
    hide Consistent, MoneyInv, Later, Guarded, Step, Replay, Written, Violates, Backed, Mine, DidAndInvoiced,
         AtMostInvoice, SameOrder, ApprovedRow;
    ghost var d2, l2 := s.db, s.log;
    var ok := s.Pause();
    LaterFrom(d2, l2, s.db, s.log, s.work);
    LockedPayment(d2, s.db, s.work, id);
    LockedUser(d2, s.db, s.work, p.user);
    if !ok {
      s.Rollback();
      return ApproveReply.Broken;
    }
    ApproveWrites(s.db, id);
    ConsistentInvariant(s.db, s.log);
    ghost var d3 := s.db;
    ok := s.Commit(Action.Approve(id));
    ConsistentLater(d3, Action.Approve(id), s.db);
    LaterTrans(old(s.db), d3, s.db);
    ghost var d4, done := s.db, s.Done();
    var _ := SafeRecord(s, FromPayment(id), p.user, p.amount);
    ThenInvoiced(old(s.Done()), done, s.Done(), Own(Action.Approve(id), Settlement(id, Abs(p.amount))), FromPayment(id),
                 p.amount);
    LaterTrans(old(s.db), d4, s.db);
    LaterOrder(d4, s.db, id);
    AmountStays(p, s.db.payments[id]);
    return ApprovedNow;
  }
}
