/** app/services/reconcile_service.py: batch re-verification and expiry of pending gateway payments. */
module ReconcileService {
  import opened Wrappers
  import opened MoneyState
  import opened MoneyLaws
  import opened MoneyRuns
  import opened Sessions
  import opened WalletService
  import opened SubscriptionService
  import opened GatewayService

  const BATCH_LIMIT := 200

  predicate IsStale(createdAt: Option<int>, now: int) {
    createdAt.Some? && now - createdAt.value > EXPIRE_AFTER
  }

  predicate IsPending(db: Db, id: PaymentId) {
    id in db.payments && db.payments[id].status == Pending && db.payments[id].via.Gateway?
  }

  /** The pending gateway payments with ids below `n`, in id order. */
  function PendingBelow(db: Db, n: int): seq<PaymentId>
    decreases Max(n, 0)
  {
    if n <= 0 then [] else PendingBelow(db, n - 1) + if IsPending(db, n - 1) then [n - 1] else []
  }

  function PendingIds(db: Db): seq<PaymentId> {
    PendingBelow(db, db.nextPayment)
  }

  lemma {:induction false} PendingBelowIs(db: Db, n: int)
    ensures forall id :: id in PendingBelow(db, n) <==> 0 <= id < n && IsPending(db, id)
    ensures forall i, j :: 0 <= i < j < |PendingBelow(db, n)| ==> PendingBelow(db, n)[i] < PendingBelow(db, n)[j]
    decreases Max(n, 0)
  {
    if n > 0 {
      PendingBelowIs(db, n - 1);
      var front := PendingBelow(db, n - 1);
      assert forall i :: 0 <= i < |front| ==> front[i] in front;
    }
  }

  // ---- one pass ------------------------------------------------------------------

  datatype Report = Report(settled: nat, already: nat, mismatch: nat, expired: nat, pending: nat)

  /** What a pass makes of one row of its batch. */
  datatype Verdict = Settled | AlreadyPaid | Refused | TimedOut | LeftPending

  function Plus(r: Report, v: Verdict): Report {
    match v
    case Settled => r.(settled := r.settled + 1)
    case AlreadyPaid => r.(already := r.already + 1)
    case Refused => r.(mismatch := r.mismatch + 1)
    case TimedOut => r.(expired := r.expired + 1)
    case LeftPending => r.(pending := r.pending + 1)
  }

  function Total(r: Report): nat {
    r.settled + r.already + r.mismatch + r.expired + r.pending
  }

  // ---- what a pass commits -----------------------------------------------------------

  /** The payments that these commits settle. */
  ghost function SettledIds(own: seq<Own>): set<PaymentId> {
    set k | 0 <= k < |own| && own[k].act.Verify? && own[k].out.Settlement? :: own[k].act.payment
  }

  /** The payments that these commits reject for a mismatch. */
  ghost function RejectedIds(own: seq<Own>): set<PaymentId> {
    set k | 0 <= k < |own| && own[k].act.Verify? && own[k].out == Other :: own[k].act.payment
  }

  /** The payments that these commits expire. */
  ghost function ExpiredIds(own: seq<Own>): set<PaymentId> {
    set k | 0 <= k < |own| && own[k].act.Expire? && own[k].out == Other :: own[k].act.payment
  }

  /** The commits of one row: a settlement with its follow-up, a rejection, an expiry past 24 hours, or none. */
  ghost predicate RowLog(own: seq<Own>, id: PaymentId, p: Payment, answer: Answer, v: Verdict, now: int) {
    match v
    case Settled =>
      && p.via.Gateway? && own != []
      && own[0] == Own(Verify(id, p.via.provider, answer), Settlement(id, Abs(p.amount))) && FollowUp(own[1..], p, id)
    case Refused => p.via.Gateway? && own == [Own(Verify(id, p.via.provider, answer), Other)]
    case TimedOut =>
      && own == [Own(Expire(id), Other)] && p.createdAt.Some? && now - p.createdAt.value > 24 * 3_600_000_000
    case _ => own == []
  }

  /** What an undisturbed check makes of a pending payment. */
  ghost function AfterCheck(p: Payment, configured: set<string>, answer: Answer, now: int): Payment {
    if p.via.Gateway? && p.via.provider in configured && answer.ok then
      if answer.amount == Some(p.amount) && (answer.user.Some? ==> answer.user == Some(p.user))
      then p.(status := Approved, providerRef := answer.ref)
      else p.(status := Rejected)
    else if p.createdAt.Some? && now - p.createdAt.value > 24 * 3_600_000_000 then p.(status := Status.Expired)
    else p
  }

  lemma RowIds(own: seq<Own>, id: PaymentId, p: Payment, answer: Answer, v: Verdict, now: int)
    requires RowLog(own, id, p, answer, v, now)
    ensures SettledIds(own) == if v == Settled then {id} else {}
    ensures RejectedIds(own) == if v == Refused then {id} else {}
    ensures ExpiredIds(own) == if v == TimedOut then {id} else {}
  {
    if own != [] {
      assert own == [own[0]] + own[1..];
      assert own[0].act.payment == id;
    }
    if v == Settled {
      assert forall k :: 1 <= k < |own| ==> own[k] == own[1..][k - 1];
      if p.intent.PlanIntent? && |own| > 1 {
        assert forall k :: 2 <= k < |own| ==> own[k] == own[1..][1..][k - 2];
      }
    }
  }

  lemma IdsAppend(a: seq<Own>, b: seq<Own>)
    ensures SettledIds(a + b) == SettledIds(a) + SettledIds(b)
    ensures RejectedIds(a + b) == RejectedIds(a) + RejectedIds(b)
    ensures ExpiredIds(a + b) == ExpiredIds(a) + ExpiredIds(b)
  {
    var c := a + b;
    assert forall k :: 0 <= k < |a| ==> c[k] == a[k];
    assert forall k :: 0 <= k < |b| ==> c[|a| + k] == b[k];
  }

  /** Each count of the report is the number of rows with that fate, and no row has two. */
  ghost predicate CountsThem(r: Report, own: seq<Own>, ids: seq<PaymentId>) {
    && r.settled == |SettledIds(own)| && r.mismatch == |RejectedIds(own)| && r.expired == |ExpiredIds(own)|
    && (forall id :: id in SettledIds(own) ==> id in ids && id !in RejectedIds(own) && id !in ExpiredIds(own))
    && (forall id :: id in RejectedIds(own) ==> id in ids && id !in ExpiredIds(own))
    && (forall id :: id in ExpiredIds(own) ==> id in ids)
  }

  lemma CountsOneMore(r: Report, own: seq<Own>, ids: seq<PaymentId>, tail: seq<Own>, id: PaymentId, p: Payment,
                      answer: Answer, v: Verdict, now: int)
    requires CountsThem(r, own, ids) && id !in ids && RowLog(tail, id, p, answer, v, now)
    ensures CountsThem(Plus(r, v), own + tail, ids + [id])
  {
    hide SettledIds, RejectedIds, ExpiredIds, RowLog;
    IdsAppend(own, tail);
    RowIds(tail, id, p, answer, v, now);
  }

  /** `verify_order`: a payment without a configured gateway cannot be verified. */
  method VerifyOrder(s: Session, id: PaymentId, configured: set<string>, answer: Answer,
                     plans: map<string, PlanRow>, redis: Redis, now: int) returns (r: VerifyReply)
    requires s.Valid() && s.work == IDLE
    modifies s
    ensures s.Valid() && s.work == IDLE && Later(old(s.db), s.db)
    ensures r.Credited? || r.Already? || r.Mismatched? ==> id in s.db.payments && s.db.payments[id].status != Pending
    ensures r.Credited? ==>
              && s.db.payments[id].via.Gateway?
              && SettledBy(old(s.Done()), s.Done(),
                           Own(Verify(id, s.db.payments[id].via.provider, answer),
                               Settlement(id, Abs(s.db.payments[id].amount))), s.db.payments[id], id)
    ensures r.Mismatched? ==>
              && s.db.payments[id].via.Gateway?
              && s.Done() == old(s.Done()) + [Own(Verify(id, s.db.payments[id].via.provider, answer), Other)]
    ensures !r.Credited? && !r.Mismatched? ==> s.Done() == old(s.Done())
    ensures old(s.turns) == [] ==> s.turns == [] && !r.Broken? && (r.Credited? || r.Mismatched? || s.db == old(s.db))
    ensures old(s.turns) == [] && IsPending(old(s.db), id) ==>
              var p := old(s.db).payments[id];
              && !r.Already? && (r.Failed? <==> !(p.via.provider in configured && answer.ok))
              && (r.Credited? || r.Mismatched? ==>
                    && s.db.payments == old(s.db).payments[id := AfterCheck(p, configured, answer, now)]
                    && (r.Credited? <==> s.db.payments[id].status == Approved))
  {
    hide Consistent, MoneyInv, Later, Guarded, Step, Replay, Backed, Mine, SettledBy, Mismatch;
    var ok := s.Pause();
    LaterFrom(old(s.db), old(s.log), s.db, s.log, IDLE);
    if !ok {
      return Broken;
    }
    if id !in s.db.payments || !s.db.payments[id].via.Gateway? || s.db.payments[id].via.provider !in configured {
      return VerifyReply.Failed;
    }
    ghost var d := s.db;
    var p := s.db.payments[id];
    var plan := if p.intent.PlanIntent? && p.intent.key in plans then Some(plans[p.intent.key]) else None;
    r := VerifyAndApply(s, id, p.via.provider, answer, plan, redis, now);
    LaterTrans(old(s.db), d, s.db);
  }

  lemma ExpireWrites(db: Db, id: PaymentId)
    requires id in db.payments && db.payments[id].status == Pending
    ensures var w := IDLE.(lockedPayments := {id}, payment := Some((id, db.payments[id].(status := Status.Expired))));
            && !Violates(db, w)
            && Step(db, Expire(id)) == (Written(db, w), Other)
            && Written(db, w).payments == db.payments[id := db.payments[id].(status := Status.Expired)]
  {
  }

  datatype ExpireReply = ExpiredNow | NoLongerPending | Broke

  /** Re-load a stale row under lock and expire it if it is still pending. */
  method ExpireStale(s: Session, id: PaymentId) returns (r: ExpireReply)
    requires s.Valid() && s.work == IDLE && id in s.db.payments
    modifies s
    ensures s.Valid() && s.work == IDLE && Later(old(s.db), s.db)
    ensures id in s.db.payments && (!r.Broke? ==> s.db.payments[id].status != Pending)
    ensures r.ExpiredNow? ==>
              s.db.payments[id].status == Status.Expired && s.Done() == old(s.Done()) + [Own(Expire(id), Other)]
    ensures !r.ExpiredNow? ==> s.Done() == old(s.Done())
    ensures old(s.turns) == [] ==>
              && s.turns == [] && !r.Broke? && (r.ExpiredNow? <==> old(s.db).payments[id].status == Pending)
              && (r.ExpiredNow? ==>
                    s.db.payments == old(s.db).payments[id := old(s.db).payments[id].(status := Status.Expired)])
              && (!r.ExpiredNow? ==> s.db == old(s.db))
  {
    hide Consistent, MoneyInv, Later, Guarded, Step, Replay, Written, Violates, Backed, Mine;
    ghost var d0, l0 := s.db, s.log;
    var ok := s.Pause();
    LaterFrom(d0, l0, s.db, s.log, IDLE);
    LaterOrder(d0, s.db, id);
    if !ok {
      return Broke;
    }
    if s.db.payments[id].status != Pending {
      return NoLongerPending;
    }
    ghost var d1, l1 := s.db, s.log;
    s.work := s.work.(lockedPayments := {id}, payment := Some((id, s.db.payments[id].(status := Status.Expired))));
    ok := s.Pause();
    LaterFrom(d1, l1, s.db, s.log, s.work);
    LaterTrans(d0, d1, s.db);
    LockedPayment(d1, s.db, s.work, id);
    if !ok {
      s.Rollback();
      return Broke;
    }
    ExpireWrites(s.db, id);
    ConsistentInvariant(s.db, s.log);
    ghost var d2 := s.db;
    ok := s.Commit(Expire(id));
    ConsistentLater(d2, Expire(id), s.db);
    LaterTrans(d0, d2, s.db);
    return ExpiredNow;
  }

  /** Verify one row of the batch and count what came of it; None when the pass broke off. */
  method ReconcileOne(s: Session, id: PaymentId, report: Report, configured: set<string>, answer: Answer,
                      plans: map<string, PlanRow>, redis: Redis, now: int)
    returns (r: Option<Report>, ghost v: Verdict)
    requires s.Valid() && s.work == IDLE && id in s.db.payments
    modifies s
    ensures s.Valid() && s.work == IDLE && Later(old(s.db), s.db) && id in s.db.payments
    ensures old(s.Done()) <= s.Done()
    ensures RowLog(s.Done()[|old(s.Done())|..], id, s.db.payments[id], answer, v, now)
    ensures r.None? ==> s.Done() == old(s.Done())
    ensures r.Some? ==>
              && r.value == Plus(report, v)
              && (IsStale(s.db.payments[id].createdAt, now) ==> s.db.payments[id].status != Pending)
    ensures old(s.turns) == [] ==> s.turns == [] && r.Some?
    ensures old(s.turns) == [] && IsPending(old(s.db), id) ==>
              var q := AfterCheck(old(s.db).payments[id], configured, answer, now);
              && s.db.payments == old(s.db).payments[id := q]
              && v == (match q.status
                       case Approved => Settled
                       case Rejected => Refused
                       case Expired => TimedOut
                       case _ => LeftPending)
              && (v == LeftPending ==> s.db == old(s.db))
  {
    hide Consistent, MoneyInv, Later, Guarded, Step, Replay, Backed, Mine, FollowUp;
    ghost var d0 := s.db;
    var createdAt := s.db.payments[id].createdAt;
    var reply := VerifyOrder(s, id, configured, answer, plans, redis, now);
    LaterOrder(d0, s.db, id);
    match reply
    case Credited => return Some(report.(settled := report.settled + 1)), Settled;
    case Already => return Some(report.(already := report.already + 1)), AlreadyPaid;
    case Mismatched => return Some(report.(mismatch := report.mismatch + 1)), Refused;
    case Broken => return None, LeftPending;
    case Failed =>
      if IsStale(createdAt, now) {
        ghost var d1 := s.db;
        var e := ExpireStale(s, id);
        LaterTrans(d0, d1, s.db);
        LaterOrder(d1, s.db, id);
        match e
        case ExpiredNow => return Some(report.(expired := report.expired + 1)), TimedOut;
        case NoLongerPending =>
        case Broke => return None, LeftPending;
      }
      return Some(report.(pending := report.pending + 1)), LeftPending;
  }

  /** The first `n` rows of the batch, those that were older than the limit, are no longer pending. */
  ghost predicate Cleared(db: Db, batch: seq<PaymentId>, n: nat, now: int)
    requires n <= |batch|
  {
    forall id :: id in batch[..n] ==>
      id in db.payments && (IsStale(db.payments[id].createdAt, now) ==> db.payments[id].status != Pending)
  }

  lemma ClearedStays(d0: Db, d1: Db, batch: seq<PaymentId>, n: nat, now: int)
    requires n <= |batch| && Cleared(d0, batch, n, now) && Later(d0, d1)
    ensures Cleared(d1, batch, n, now)
  {
    forall id | id in batch[..n]
      ensures id in d1.payments && (IsStale(d1.payments[id].createdAt, now) ==> d1.payments[id].status != Pending)
    {
      LaterOrder(d0, d1, id);
    }
  }

  lemma BatchStays(d0: Db, d1: Db, batch: seq<PaymentId>)
    requires forall id :: id in batch ==> id in d0.payments
    requires Later(d0, d1)
    ensures forall id :: id in batch ==> id in d1.payments
  {
    forall id | id in batch ensures id in d1.payments {
      LaterOrder(d0, d1, id);
    }
  }

  /** The pending gateway payments, oldest first and none left out unless there are more than 200. */
  ghost predicate OldestPending(db: Db, batch: seq<PaymentId>) {
    && |batch| <= 200 && (forall i, j :: 0 <= i < j < |batch| ==> batch[i] < batch[j])
    && (forall id :: id in batch ==>
          id in db.payments && db.payments[id].status == Pending && db.payments[id].via.Gateway?)
    && (forall id :: id in db.payments && db.payments[id].status == Pending && db.payments[id].via.Gateway? ==>
          id in batch || (|batch| == 200 && forall j :: j in batch ==> j < id))
  }

  lemma BatchIsOldest(db: Db)
    requires Sequenced(db)
    ensures var batch := Take(PendingIds(db), BATCH_LIMIT);
            OldestPending(db, batch) && forall id :: id in batch ==> IsPending(db, id)
  {
    PendingBelowIs(db, db.nextPayment);
    var all, batch := PendingIds(db), Take(PendingIds(db), BATCH_LIMIT);
    var rest := Drop(all, BATCH_LIMIT);
    assert all == batch + rest;
    assert forall id :: id in batch ==> id in all;
    forall id | id in db.payments && db.payments[id].status == Pending && db.payments[id].via.Gateway? && id !in batch
      ensures |batch| == 200 && forall j :: j in batch ==> j < id
    {
      assert IsPending(db, id) && id in all && id in rest;
      var k :| 0 <= k < |rest| && rest[k] == id;
      assert all[|batch| + k] == id;
      forall j | j in batch ensures j < id {
        var i :| 0 <= i < |batch| && batch[i] == j;
        assert all[i] == j;
      }
    }
  }

  /** A pass settles and rejects only rows of its batch, and expires only those known to be over 24 hours old. */
  ghost predicate KeepsToBatch(own: seq<Own>, db: Db, ids: seq<PaymentId>, now: int) {
    && (forall id :: id in SettledIds(own) + RejectedIds(own) ==> id in ids)
    && (forall id :: id in ExpiredIds(own) ==>
          && id in ids && id in db.payments && db.payments[id].createdAt.Some?
          && now - db.payments[id].createdAt.value > 24 * 3_600_000_000)
  }

  lemma KeepsOneMore(own: seq<Own>, db: Db, ids: seq<PaymentId>, tail: seq<Own>, after: Db, id: PaymentId,
                     answer: Answer, v: Verdict, now: int)
    requires KeepsToBatch(own, db, ids, now) && id in db.payments && id in after.payments && Later(db, after)
    requires RowLog(tail, id, after.payments[id], answer, v, now)
    ensures KeepsToBatch(own + tail, db, ids + [id], now)
  {
    hide SettledIds, RejectedIds, ExpiredIds;
    LaterOrder(db, after, id);
    IdsAppend(own, tail);
    RowIds(tail, id, after.payments[id], answer, v, now);
  }

  function AnswerFor(answers: map<PaymentId, Answer>, id: PaymentId): Answer {
    if id in answers then answers[id] else Answer(false, None, None, None)
  }

  /**
   * An undisturbed pass over these rows: each has become what its check makes of it,
   * and was settled, rejected or expired accordingly; no other payment has changed.
   */
  ghost predicate Swept(db: Db, after: Db, own: seq<Own>, ids: seq<PaymentId>, configured: set<string>,
                        answers: map<PaymentId, Answer>, now: int) {
    && after.payments.Keys == db.payments.Keys
    && (forall id :: id in db.payments ==>
          after.payments[id] ==
          if id in ids then AfterCheck(db.payments[id], configured, AnswerFor(answers, id), now) else db.payments[id])
    && (forall id :: id in ids && id in after.payments ==>
          && (id in SettledIds(own) <==> after.payments[id].status == Approved)
          && (id in RejectedIds(own) <==> after.payments[id].status == Rejected)
          && (id in ExpiredIds(own) <==> after.payments[id].status == Status.Expired))
  }

  lemma SweptOneMore(db: Db, d0: Db, own: seq<Own>, ids: seq<PaymentId>, tail: seq<Own>, d1: Db, id: PaymentId,
                     configured: set<string>, answers: map<PaymentId, Answer>, v: Verdict, now: int)
    requires Swept(db, d0, own, ids, configured, answers, now) && KeepsToBatch(own, db, ids, now)
    requires id !in ids && IsPending(db, id) && IsPending(d0, id)
    requires var q := AfterCheck(d0.payments[id], configured, AnswerFor(answers, id), now);
             && d1.payments == d0.payments[id := q]
             && v == (match q.status
                      case Approved => Settled
                      case Rejected => Refused
                      case Expired => TimedOut
                      case _ => LeftPending)
             && RowLog(tail, id, q, AnswerFor(answers, id), v, now)
    ensures Swept(db, d1, own + tail, ids + [id], configured, answers, now)
  {
    hide SettledIds, RejectedIds, ExpiredIds, RowLog;
    IdsAppend(own, tail);
    RowIds(tail, id, d1.payments[id], AnswerFor(answers, id), v, now);
  }

  lemma NothingYet(db: Db, configured: set<string>, answers: map<PaymentId, Answer>, now: int)
    ensures CountsThem(Report(0, 0, 0, 0, 0), [], []) && KeepsToBatch([], db, [], now)
    ensures Swept(db, db, [], [], configured, answers, now)
  {
  }

  lemma ClearedOneMore(d0: Db, d1: Db, batch: seq<PaymentId>, n: nat, now: int)
    requires n < |batch| && Cleared(d0, batch, n, now) && Later(d0, d1)
    requires batch[n] in d1.payments
    requires IsStale(d1.payments[batch[n]].createdAt, now) ==> d1.payments[batch[n]].status != Pending
    ensures Cleared(d1, batch, n + 1, now)
  {
    ClearedStays(d0, d1, batch, n, now);
    assert batch[..n + 1] == batch[..n] + [batch[n]];
  }

  /** The pass has come through the first `n` rows of its batch with these commits and this report. */
  ghost predicate SoFar(seen: Db, db: Db, own: seq<Own>, batch: seq<PaymentId>, n: nat, report: Report, now: int) {
    && n <= |batch| && Later(seen, db) && Total(report) == n
    && (forall id :: id in batch ==> id in seen.payments && id in db.payments)
    && Cleared(db, batch, n, now) && KeepsToBatch(own, seen, batch[..n], now) && CountsThem(report, own, batch[..n])
  }

  lemma SoFarNothing(db: Db, batch: seq<PaymentId>, configured: set<string>, answers: map<PaymentId, Answer>, now: int)
    requires forall id :: id in batch ==> id in db.payments
    ensures SoFar(db, db, [], batch, 0, Report(0, 0, 0, 0, 0), now)
    ensures Swept(db, db, [], batch[..0], configured, answers, now)
  {
    hide Later, KeepsToBatch, CountsThem, Swept, IsStale;
    LaterSame(db);
    NothingYet(db, configured, answers, now);
    var none := batch[..0];
    assert none == [];
    assert Cleared(db, batch, 0, now);
    assert Total(Report(0, 0, 0, 0, 0)) == 0;
    assert KeepsToBatch([], db, none, now) && CountsThem(Report(0, 0, 0, 0, 0), [], none);
    assert Swept(db, db, [], none, configured, answers, now);
  }

  lemma SoFarOneMore(seen: Db, d: Db, db: Db, own: seq<Own>, batch: seq<PaymentId>, n: nat, report: Report,
                     tail: seq<Own>, answer: Answer, v: Verdict, now: int)
    requires SoFar(seen, d, own, batch, n, report, now) && n < |batch| && batch[n] !in batch[..n] && Later(d, db)
    requires batch[n] in db.payments && RowLog(tail, batch[n], db.payments[batch[n]], answer, v, now)
    requires IsStale(db.payments[batch[n]].createdAt, now) ==> db.payments[batch[n]].status != Pending
    ensures SoFar(seen, db, own + tail, batch, n + 1, Plus(report, v), now)
  {
    hide Later, Cleared, KeepsToBatch, CountsThem, IsStale, RowLog;
    var id := batch[n];
    LaterTrans(seen, d, db);
    ClearedOneMore(d, db, batch, n, now);
    BatchStays(d, db, batch);
    assert batch[..n + 1] == batch[..n] + [id];
    CountsOneMore(report, own, batch[..n], tail, id, db.payments[id], answer, v, now);
    KeepsOneMore(own, seen, batch[..n], tail, db, id, answer, v, now);
  }

  lemma KeepsAll(own: seq<Own>, db: Db, batch: seq<PaymentId>, n: nat, now: int)
    requires n <= |batch| && KeepsToBatch(own, db, batch[..n], now)
    ensures KeepsToBatch(own, db, batch, now)
  {
    hide SettledIds, RejectedIds, ExpiredIds;
  }

  /** What keeps to the first rows of the batch keeps to the batch. */
  lemma SoFarKeeps(seen: Db, db: Db, own: seq<Own>, batch: seq<PaymentId>, n: nat, report: Report, now: int)
    requires SoFar(seen, db, own, batch, n, report, now)
    ensures KeepsToBatch(own, seen, batch, now) && Later(seen, db)
    ensures n < |batch| ==> batch[n] in seen.payments && batch[n] in db.payments
    ensures n == |batch| ==>
              Total(report) == n && Cleared(db, batch, n, now) && CountsThem(report, own, batch)
  {
    hide Later, KeepsToBatch, CountsThem, Cleared;
    KeepsAll(own, seen, batch, n, now);
    if n == |batch| {
      assert batch[..n] == batch;
    } else {
      var id := batch[n];
      assert id in batch;
    }
  }

  lemma SoFarPrefix(seen: Db, db: Db, own: seq<Own>, batch: seq<PaymentId>, n: nat, report: Report, now: int)
    requires SoFar(seen, db, own, batch, n, report, now)
    ensures KeepsToBatch(own, seen, batch[..n], now)
  {
  }

  /** A row that the pass has not come to is as it was read. */
  lemma StillPending(db: Db, d: Db, own: seq<Own>, ids: seq<PaymentId>, id: PaymentId, configured: set<string>,
                     answers: map<PaymentId, Answer>, now: int)
    requires Swept(db, d, own, ids, configured, answers, now) && IsPending(db, id) && id !in ids
    ensures IsPending(d, id)
  {
  }

  /**
   * One pass over the oldest pending rows. The report counts the settlements,
   * rejections and expiries that the pass has committed, and all the counts add up
   * to the batch. It expires only rows known to be over 24 hours old, even when it
   * breaks off, and every such row has left the pending state when it does not,
   * whatever the gateways answer; an undisturbed pass leaves every younger row that
   * no gateway confirms as it was. `seen` is the state the batch was read from.
   */
  method ReconcilePending(s: Session, configured: set<string>, answers: map<PaymentId, Answer>,
                          plans: map<string, PlanRow>, redis: Redis, now: int)
    returns (r: Option<Report>, batch: seq<PaymentId>, ghost seen: Db)
    requires s.Valid() && s.work == IDLE
    modifies s
    ensures s.Valid() && s.work == IDLE && Later(old(s.db), seen) && Later(seen, s.db)
    ensures batch == Take(PendingIds(seen), BATCH_LIMIT) && OldestPending(seen, batch)
    ensures r.Some? ==> Total(r.value) == |batch| && Cleared(s.db, batch, |batch|, now)
    ensures old(s.Done()) <= s.Done() && KeepsToBatch(s.Done()[|old(s.Done())|..], seen, batch, now)
    ensures r.Some? ==> CountsThem(r.value, s.Done()[|old(s.Done())|..], batch)
    ensures r.Some? && NoArrivals(old(s.db), seen) && NoArrivals(seen, s.db) ==> Pass(old(s.db), seen, s.db, now)
    ensures old(s.turns) == [] ==>
              && s.turns == [] && r.Some? && seen == old(s.db) && r.value.already == 0
              && Swept(old(s.db), s.db, s.Done()[|old(s.Done())|..], batch, configured, answers, now)
  {
    hide Consistent, MoneyInv, Later, Guarded, Step, Replay, Backed, Mine, PendingIds, IsStale, RowLog, Swept,
        OldestPending, AfterCheck, KeepsToBatch, CountsThem, Cleared, IsPending, SoFar;
    var ok := s.Pause();
    LaterFrom(old(s.db), old(s.log), s.db, s.log, IDLE);
    seen := s.db;
    ConsistentSequenced(old(s.db), old(s.log));
    ConsistentSequenced(s.db, s.log);
    batch := Take(PendingIds(s.db), BATCH_LIMIT);
    BatchIsOldest(s.db);
    ghost var own: seq<Own> := [];
    var report := Report(0, 0, 0, 0, 0);
    var i := 0;
    SoFarNothing(seen, batch, configured, answers, now);
    SoFarKeeps(seen, seen, own, batch, 0, report, now);
    if !ok {
      assert s.Done()[|old(s.Done())|..] == own;
      return None, batch, seen;
    }
    while i < |batch|
      invariant 0 <= i <= |batch| && s.Valid() && s.work == IDLE
      invariant s.Done() == old(s.Done()) + own && SoFar(seen, s.db, own, batch, i, report, now)
      invariant old(s.turns) == [] ==>
                  s.turns == [] && report.already == 0 && Swept(seen, s.db, own, batch[..i], configured, answers, now)
    {
      var id := batch[i];
      ghost var d, before := s.db, s.Done();
      assert batch[..i + 1] == batch[..i] + [id] && id !in batch[..i];
      SoFarKeeps(seen, d, own, batch, i, report, now);
      var next, v := ReconcileOne(s, id, report, configured, AnswerFor(answers, id), plans, redis, now);
      LaterTrans(seen, d, s.db);
      if next.None? {
        assert s.Done()[|old(s.Done())|..] == own;
        return None, batch, seen;
      }
      ghost var tail := s.Done()[|before|..];
      SoFarOneMore(seen, d, s.db, own, batch, i, report, tail, AnswerFor(answers, id), v, now);
      if old(s.turns) == [] {
        StillPending(seen, d, own, batch[..i], id, configured, answers, now);
        SoFarPrefix(seen, d, own, batch, i, report, now);
        SweptOneMore(seen, d, own, batch[..i], tail, s.db, id, configured, answers, v, now);
      }
      own := own + tail;
      report := next.value;
      i := i + 1;
    }
    SoFarKeeps(seen, s.db, own, batch, i, report, now);
    assert batch[..i] == batch && s.Done()[|old(s.Done())|..] == own;
    return Some(report), batch, seen;
  }

  // ---- repeated passes ----------------------------------------------------------------

  lemma ConsistentSequenced(db: Db, log: seq<Logged>)
    requires Consistent(db, log)
    ensures Sequenced(db)
  {
    ConsistentInvariant(db, log);
  }

  /** No payment has become pending between two states that was not there before. */
  ghost predicate NoArrivals(d0: Db, d1: Db) {
    forall id :: IsPending(d1, id) ==> id in d0.payments
  }

  /** One complete pass without arrivals, as `ReconcilePending` guarantees it. */
  ghost predicate Pass(d0: Db, seen: Db, d1: Db, now: int) {
    && Sequenced(d0) && Sequenced(seen)
    && Later(d0, seen) && Later(seen, d1)
    && NoArrivals(d0, seen) && NoArrivals(seen, d1)
    && Cleared(d1, Take(PendingIds(seen), BATCH_LIMIT), |Take(PendingIds(seen), BATCH_LIMIT)|, now)
  }

  ghost predicate AllStale(db: Db, now: int) {
    forall id :: id in PendingIds(db) ==> id in db.payments && IsStale(db.payments[id].createdAt, now)
  }

  lemma {:induction false} SortedSubsetLength(a: seq<int>, b: seq<int>)
    requires forall i, j :: 0 <= i < j < |a| ==> a[i] < a[j]
    requires forall x :: x in a ==> x in b
    ensures |a| <= |b|
    decreases |a|
  {
    if a != [] {
      var x := a[|a| - 1];
      assert x in b;
      var k :| 0 <= k < |b| && b[k] == x;
      var front, rest := a[..|a| - 1], b[..k] + b[k + 1..];
      forall y | y in front ensures y in rest {
        var i :| 0 <= i < |front| && front[i] == y;
        assert a[i] < a[|a| - 1] && a[i] in b;
        var l :| 0 <= l < |b| && b[l] == y;
        if l < k { assert rest[l] == y; } else { assert rest[l - 1] == y; }
      }
      SortedSubsetLength(front, rest);
    }
  }

  /** Pending payments of a later state without arrivals were pending before, with the same age. */
  lemma PendingShrinks(d0: Db, d1: Db, id: PaymentId)
    requires Sequenced(d0) && Later(d0, d1) && NoArrivals(d0, d1) && id in PendingIds(d1)
    ensures id in PendingIds(d0) && id in d0.payments && id in d1.payments
    ensures d1.payments[id].createdAt == d0.payments[id].createdAt
  {
    PendingBelowIs(d0, d0.nextPayment);
    PendingBelowIs(d1, d1.nextPayment);
    assert IsPending(d1, id);
    LaterOrder(d0, d1, id);
  }

  lemma PassShrinks(d0: Db, seen: Db, d1: Db, now: int)
    requires Pass(d0, seen, d1, now) && AllStale(d0, now)
    ensures AllStale(d1, now)
    ensures |PendingIds(d1)| <= Max(|PendingIds(d0)| - BATCH_LIMIT, 0)
  {
    var p0, ps, p1 := PendingIds(d0), PendingIds(seen), PendingIds(d1);
    PendingBelowIs(seen, seen.nextPayment);
    PendingBelowIs(d1, d1.nextPayment);
    forall id | id in ps ensures id in p0 {
      PendingShrinks(d0, seen, id);
    }
    SortedSubsetLength(ps, p0);
    var batch, rest := Take(ps, BATCH_LIMIT), Drop(ps, BATCH_LIMIT);
    assert ps == batch + rest;
    forall id | id in p1 ensures id in rest && id in d1.payments && IsStale(d1.payments[id].createdAt, now) {
      PendingShrinks(seen, d1, id);
      PendingShrinks(d0, seen, id);
      assert batch[..|batch|] == batch;
      assert id !in batch;
    }
    SortedSubsetLength(p1, rest);
  }

  /**
   * When every pending gateway payment is older than the limit and no new one
   * arrives, k passes leave at most n - 200k of n pending, so ceil(n / 200)
   * passes leave none.
   */
  lemma {:induction false} PassesDrain(states: seq<Db>, seen: seq<Db>, now: seq<int>)
    requires |states| == |seen| + 1 && |now| == |seen|
    requires forall i :: 0 <= i < |seen| ==> Pass(states[i], seen[i], states[i + 1], now[i])
    requires forall i, j :: 0 <= i < j < |now| ==> now[i] <= now[j]
    requires seen != [] ==> AllStale(states[0], now[0])
    ensures |PendingIds(states[|seen|])| <= Max(|PendingIds(states[0])| - BATCH_LIMIT * |seen|, 0)
    ensures BATCH_LIMIT * |seen| >= |PendingIds(states[0])| ==> PendingIds(states[|seen|]) == []
    decreases |seen|
  {
    if seen != [] {
      PassShrinks(states[0], seen[0], states[1], now[0]);
      var later := now[1..];
      if later != [] {
        StaleLater(states[1], now[0], now[1]);
        assert later[0] == now[1];
      }
      PassesDrain(states[1..], seen[1..], later);
    }
  }

  lemma StaleLater(db: Db, t0: int, t1: int)
    requires AllStale(db, t0) && t0 <= t1
    ensures AllStale(db, t1)
  {
  }
}
