/**
 * The plan columns of one user over whole runs of the money tables: they follow
 * the user's history of purchases, sweeps and revocations, so what is proved of
 * histories holds under every interleaving with everything else.
 */
module PlanRuns {
  import opened Wrappers
  import opened Plans
  import opened MoneyState
  import opened MoneyLaws
  import opened MoneyRuns
  import opened Sessions
  import opened SubscriptionService

  /** What a transaction does to the user's plan; `days` are the plans' lengths and `now` is when it commits. */
  function EventOf(db: Db, a: Action, u: UserId, days: string -> int, now: int): Option<Event> {
    if u !in db.plan then None
    else match a
      case BuyPlan(user, key, _, at, _) =>
        if user == u && Step(db, a).1 != Refusal then Some(Buy(key, days(key), at)) else None
      case SweepPlans(users) => if u in users then Some(Sweep(now)) else None
      case RefundPayment(id, at) =>
        if Step(db, a).1 != Refusal && db.payments[id].user == u && db.payments[id].intent.PlanIntent?
        then Some(Revoke(db.payments[id].intent.key, at))
        else None
      case _ => None
  }

  /** The history of the user's plan; `when[i]` is the instant of transaction `i`. */
  function History(acts: seq<Action>, when: seq<int>, u: UserId, days: string -> int): seq<Event>
    requires |when| == |acts|
  {
    if acts == [] then []
    else
      var front, n := acts[..|acts| - 1], |acts| - 1;
      match EventOf(Replay(EMPTY, front), acts[n], u, days, when[n])
      case None => History(front, when[..n], u, days)
      case Some(e) => History(front, when[..n], u, days) + [e]
  }

  /**
   * A purchase was quoted from the plan held when it commits, as every paid one is,
   * and a sweep takes only users who are expired when it commits.
   */
  ghost predicate Quoted(db: Db, a: Action, u: UserId, days: string -> int, now: int) {
    u in db.plan ==>
      && (a.BuyPlan? && a.user == u ==> a.expires == ComputeExpiry(db.plan[u], a.key, days(a.key), a.at))
      && (a.SweepPlans? && u in a.users ==> Plans.Expired(db.plan[u], now))
  }

  ghost predicate AllQuoted(acts: seq<Action>, when: seq<int>, u: UserId, days: string -> int)
    requires |when| == |acts|
  {
    forall i :: 0 <= i < |acts| ==> Quoted(Replay(EMPTY, acts[..i]), acts[i], u, days, when[i])
  }

  /** The user's plan after the transaction is what its event makes of the one before. */
  ghost predicate Follows(db: Db, a: Action, u: UserId, days: string -> int, now: int)
    requires u in db.plan
  {
    var after := Step(db, a).0;
    && u in after.plan
    && after.plan[u] == match EventOf(db, a, u, days, now)
                        case None => db.plan[u]
                        case Some(e) => After(db.plan[u], e)
  }

  lemma PaymentFollows(db: Db, a: Action, u: UserId, days: string -> int, now: int)
    requires Sequenced(db) && u in db.plan
    requires a.Create? || a.Approve? || a.Reject? || a.Verify? || a.Expire? || a.RefundPayment? || a.StarsCharge?
    ensures Follows(db, a, u, days, now)
  {
    hide Retire, ChargeSeen, Mismatch, ComputeExpiry, BuyPlanTx, BuyMediaTx, BuyBotTx, RenewBotTx, InvoiceTx;
  }

  lemma SaleFollows(db: Db, a: Action, u: UserId, days: string -> int, now: int)
    requires Sequenced(db) && u in db.plan && Quoted(db, a, u, days, now)
    requires a.Register? || a.BuyPlan? || a.BuyMedia? || a.BuyBot? || a.RenewBot? || a.SweepPlans? || a.RecordInvoice?
    ensures Follows(db, a, u, days, now)
  {
    hide Retire, InvoiceClash, ComputeExpiry, CreateTx, ApproveTx, VerifyTx, RejectTx, ExpireTx, RefundTx, StarsTx;
  }

  lemma PlanStep(db: Db, a: Action, u: UserId, days: string -> int, now: int)
    requires Sequenced(db) && u in db.plan && Quoted(db, a, u, days, now)
    ensures Follows(db, a, u, days, now)
  {
    hide Follows, Step, EventOf, Quoted, Sequenced;
    if a.Create? || a.Approve? || a.Reject? || a.Verify? || a.Expire? || a.RefundPayment? || a.StarsCharge? {
      PaymentFollows(db, a, u, days, now);
    } else {
      SaleFollows(db, a, u, days, now);
    }
  }

  lemma NewUserIsFree(db: Db, a: Action, u: UserId)
    requires Sequenced(db) && u !in db.plan && u in Step(db, a).0.plan
    ensures Step(db, a).0.plan[u] == Hold(FREE, None)
  {
    hide Retire, InvoiceClash, ChargeSeen, Mismatch;
  }

  /** The plan columns are what the history makes of a new user's. */
  lemma {:induction false} PlanFollowsHistory(acts: seq<Action>, when: seq<int>, u: UserId, days: string -> int)
    requires |when| == |acts| && AllQuoted(acts, when, u, days)
    ensures var db := Replay(EMPTY, acts);
            && (u in db.plan ==> db.plan[u] == RunPlan(Hold(FREE, None), History(acts, when, u, days)))
            && (u !in db.plan ==> History(acts, when, u, days) == [])
  {
    if acts != [] {
      hide Step, Quoted, EventOf;
      var n := |acts| - 1;
      var front, a := acts[..n], acts[n];
      assert forall i :: 0 <= i < n ==> front[..i] == acts[..i];
      assert AllQuoted(front, when[..n], u, days);
      PlanFollowsHistory(front, when[..n], u, days);
      ReachableSequenced(front);
      LastEvent(Replay(EMPTY, front), a, History(front, when[..n], u, days), u, days, when[n]);
    }
  }

  lemma LastEvent(db: Db, a: Action, es: seq<Event>, u: UserId, days: string -> int, now: int)
    requires Sequenced(db) && Quoted(db, a, u, days, now)
    requires u in db.plan ==> db.plan[u] == RunPlan(Hold(FREE, None), es)
    requires u !in db.plan ==> es == []
    ensures var after := Step(db, a).0;
            var more := match EventOf(db, a, u, days, now) case None => es case Some(e) => es + [e];
            && (u in after.plan ==> after.plan[u] == RunPlan(Hold(FREE, None), more))
            && (u !in after.plan ==> more == [])
  {
    hide Step, Quoted;
    if u in db.plan {
      PlanStep(db, a, u, days, now);
      var e := EventOf(db, a, u, days, now);
      if e.Some? {
        assert (es + [e.value])[..|es|] == es;
      }
    } else if u in Step(db, a).0.plan {
      NewUserIsFree(db, a, u);
    }
  }

  /**
   * Under every interleaving: if all a user ever buys is one paid plan, and nothing
   * of it is refunded, the periods sold are disjoint and of full length, and at any
   * later instant the tables show the plan exactly in their union.
   */
  lemma PeriodsAreDisjointInEveryRun(acts: seq<Action>, when: seq<int>, u: UserId, key: string, days: int, t: int)
    requires |when| == |acts| && AllQuoted(acts, when, u, k => days)
    requires u in Replay(EMPTY, acts).plan
    requires var es := History(acts, when, u, k => days); OnePlan(es, key, days) && InOrder(es, t)
    ensures var spans := Sold(Hold(FREE, None), History(acts, when, u, k => days));
            && (forall i :: 0 <= i < |spans| ==> spans[i].end == spans[i].start + days * DAY)
            && (forall i, j :: 0 <= i < j < |spans| ==> spans[i].end <= spans[j].start)
            && (EffectivePlan(Replay(EMPTY, acts).plan[u], t) == key <==> Covers(spans, t))
  {
    PlanFollowsHistory(acts, when, u, k => days);
    PurchasesSellDisjointPeriods(Hold(FREE, None), History(acts, when, u, k => days), key, days, t);
  }

  // ---- what the service promises of its purchases --------------------------------------

  /** A purchase that extended the plan held at its commit still did when the log has grown. */
  lemma ExtendsAtStays(log: seq<Logged>, more: seq<Logged>, k: nat, u: UserId, days: int)
    requires k < |log|
    ensures ExtendsAt(log, k, u, days) <==> ExtendsAt(log + more, k, u, days)
  {
    assert (log + more)[..k] == log[..k];
  }

  /**
   * What a paid purchase promises is what the run theorem asks: if every purchase of
   * the user in a log extends the plan held at its commit, and sweeps take expired
   * users, then the whole log is quoted.
   */
  lemma ServiceLogIsQuoted(log: seq<Logged>, when: seq<int>, u: UserId, days: string -> int)
    requires |when| == |log|
    requires forall k :: 0 <= k < |log| && log[k].act.BuyPlan? && log[k].act.user == u ==>
               ExtendsAt(log, k, u, days(log[k].act.key))
    requires forall k :: 0 <= k < |log| && log[k].act.SweepPlans? && u in log[k].act.users ==>
               HoldAt(log, k, u).Some? ==> Plans.Expired(HoldAt(log, k, u).value, when[k])
    ensures AllQuoted(Acts(log), when, u, days)
  {
    var acts := Acts(log);
    forall i | 0 <= i < |acts| ensures Quoted(Replay(EMPTY, acts[..i]), acts[i], u, days, when[i]) {
      assert acts[..i] == Acts(log[..i]);
      if u in Replay(EMPTY, acts[..i]).plan {
        var held := Replay(EMPTY, acts[..i]).plan[u];
        assert HoldAt(log, i, u) == Some(held);
        if acts[i].BuyPlan? && acts[i].user == u {
          QuoteMeans(held, acts[i].key, days(acts[i].key), acts[i].at, acts[i].expires);
        }
      }
    }
  }

  /**
   * A purchase for nothing takes no lock on the user: two that read the plan before
   * either commits are both granted, and extend it once.
   */
  lemma TwoFreePurchasesExtendOnce(db: Db, u: UserId, key: string, days: int, now: int)
    requires u in db.balance && u in db.plan && days > 0
    ensures var e := ComputeExpiry(db.plan[u], key, days, now);
            var (once, first) := Step(db, BuyPlan(u, key, 0, now, e));
            var (twice, second) := Step(once, BuyPlan(u, key, 0, now, e));
            && first == second == Sale(PlanGrant(u, key), 0)
            && twice.plan[u] == once.plan[u] == Hold(key, e)
            && |twice.subs| == |db.subs| + 2
            && e != ComputeExpiry(once.plan[u], key, days, now)
  {
  }
}
