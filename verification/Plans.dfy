/**
 * Plan ranks, the expiry of a purchase, the effective plan and the sweep that
 * downgrades users whose period has run out. Instants are microseconds.
 */
module Plans {
  import opened Wrappers

  const FREE := "free"
  const DAY := 86_400_000_000

  function PlanRank(key: string): nat {
    if key == "plus" then 1 else if key == "max" then 2 else 0
  }

  /** The plan columns of a user row. */
  datatype Hold = Hold(plan: string, expires: Option<int>)

  function EffectivePlan(h: Hold, now: int): string {
    if h.plan == "" || h.plan == FREE then FREE
    else match h.expires
      case None => h.plan
      case Some(e) => if e > now then h.plan else FREE
  }

  /** Where a purchase starts: the end of the running period, or now. */
  function Base(h: Hold, key: string, now: int): int {
    if PlanRank(h.plan) >= PlanRank(key) && h.expires.Some? && h.expires.value > now
    then h.expires.value
    else now
  }

  function ComputeExpiry(h: Hold, key: string, days: int, now: int): Option<int> {
    if days == 0 then None else Some(Base(h, key, now) + days * DAY)
  }

  // ---- what a quote means, with the order free < plus < max written out -----------

  /** The holder of `held` asks for a plan that is not above it. */
  predicate NotAbove(key: string, held: string) {
    || (key != "plus" && key != "max")
    || (key == "plus" && (held == "plus" || held == "max"))
    || (key == "max" && held == "max")
  }

  /** A period of the user is running at `now`. */
  predicate Running(h: Hold, now: int) {
    h.expires.Some? && h.expires.value > now
  }

  /**
   * What a buyer gets for `days` days: forever when `days` is 0; on top of the
   * running period for a plan not above the one held, so that no paid instant is
   * lost; from now on for a plan above it, or when no period runs.
   */
  predicate SoldUntil(h: Hold, key: string, days: int, now: int, expires: Option<int>) {
    match expires
    case None => days == 0
    case Some(end) =>
      && days != 0
      && (Running(h, now) && NotAbove(key, h.plan) ==> end == h.expires.value + days * 86_400_000_000)
      && (!(Running(h, now) && NotAbove(key, h.plan)) ==> end == now + days * 86_400_000_000)
  }

  /** The quote is the one expiry that means this. */
  lemma QuoteMeans(h: Hold, key: string, days: int, now: int, expires: Option<int>)
    ensures SoldUntil(h, key, days, now, expires) <==> expires == ComputeExpiry(h, key, days, now)
  {
  }

  /**
   * After a purchase for `days > 0` the buyer has the plan bought, at every instant
   * of the new period and at none after it; one who bought a plan not above the
   * running one has paid time for all that was left of it and for the days bought.
   */
  lemma PurchaseLastsAsSold(h: Hold, key: string, days: int, now: int, t: int)
    requires key != "free" && key != "" && days > 0 && now <= t
    ensures var after := After(h, Buy(key, days, now));
            var left := if Running(h, now) && NotAbove(key, h.plan) then h.expires.value - now else 0;
            && EffectivePlan(after, t) == (if t < now + left + days * 86_400_000_000 then key else "free")
            && (Running(h, now) && NotAbove(key, h.plan) && t < h.expires.value ==> EffectivePlan(after, t) == key)
  {
    QuoteMeans(h, key, days, now, ComputeExpiry(h, key, days, now));
  }

  /** A purchase of a plan without an end is never over. */
  lemma PerpetualPurchaseLasts(h: Hold, key: string, now: int, t: int)
    requires key != "free" && key != ""
    ensures EffectivePlan(After(h, Buy(key, 0, now)), t) == key
  {
  }

  predicate Expired(h: Hold, now: int) {
    h.plan != FREE && h.expires.Some? && h.expires.value < now
  }

  function SweepHold(h: Hold, now: int): Hold {
    if Expired(h, now) then h.(plan := FREE) else h
  }

  // ---- histories of one user -----------------------------------------------

  /** What can happen to a user's plan: a purchase, a sweep, a refund's revocation. */
  datatype Event =
    | Buy(key: string, days: int, at: int)
    | Sweep(at: int)
    | Revoke(key: string, at: int)

  function After(h: Hold, e: Event): Hold {
    match e
    case Buy(key, days, at) => Hold(key, ComputeExpiry(h, key, days, at))
    case Sweep(at) => SweepHold(h, at)
    case Revoke(key, _) => if h.plan == key then Hold(FREE, None) else h
  }

  function RunPlan(h: Hold, es: seq<Event>): Hold {
    if es == [] then h else After(RunPlan(h, es[..|es| - 1]), es[|es| - 1])
  }

  /** The expiries quoted to the buyer, one for each purchase of the history. */
  function Quotes(h: Hold, es: seq<Event>): seq<Option<int>> {
    if es == [] then []
    else
      var front := es[..|es| - 1];
      match es[|es| - 1]
      case Buy(key, days, at) => Quotes(h, front) + [ComputeExpiry(RunPlan(h, front), key, days, at)]
      case _ => Quotes(h, front)
  }

  ghost predicate InOrder(es: seq<Event>, until: int) {
    && (forall i, j :: 0 <= i < j < |es| ==> es[i].at <= es[j].at)
    && (forall i :: 0 <= i < |es| ==> es[i].at <= until)
  }

  lemma InOrderPrefix(es: seq<Event>, until: int)
    requires InOrder(es, until) && es != []
    ensures InOrder(es[..|es| - 1], es[|es| - 1].at) && es[|es| - 1].at <= until
  {
  }

  // ---- the sweep cannot be observed ------------------------------------------

  /** No period is running: the user is free now and every later purchase starts afresh. */
  ghost predicate Lapsed(h: Hold, now: int) {
    match h.expires
    case None => h.plan == FREE || h.plan == ""
    case Some(e) => e <= now
  }

  ghost predicate Alike(u: Hold, v: Hold, now: int) {
    u == v || (Lapsed(u, now) && Lapsed(v, now))
  }

  lemma AlikeAfter(u: Hold, v: Hold, e: Event, now: int)
    requires Alike(u, v, now) && now <= e.at
    ensures Alike(After(u, e), After(v, e), e.at)
    ensures e.Buy? ==> ComputeExpiry(u, e.key, e.days, e.at) == ComputeExpiry(v, e.key, e.days, e.at)
  {
  }

  lemma AlikeEffective(u: Hold, v: Hold, t: int)
    requires Alike(u, v, t)
    ensures EffectivePlan(u, t) == EffectivePlan(v, t)
  {
  }

  lemma SweepAlike(h: Hold, s: int, t: int)
    requires s <= t
    ensures Alike(SweepHold(h, s), h, t)
  {
  }

  lemma RunSnoc(h: Hold, es: seq<Event>, e: Event)
    ensures RunPlan(h, es + [e]) == After(RunPlan(h, es), e)
    ensures Quotes(h, es + [e]) ==
              if e.Buy? then Quotes(h, es) + [ComputeExpiry(RunPlan(h, es), e.key, e.days, e.at)] else Quotes(h, es)
  {
    assert (es + [e])[..|es|] == es;
  }

  /**
   * A sweep put anywhere into a history changes neither the effective plan at
   * any later instant nor the expiry of any later purchase.
   */
  lemma {:induction false} SweepUnobservable(h: Hold, before: seq<Event>, s: int, after: seq<Event>, t: int)
    requires InOrder(before + [Sweep(s)] + after, t)
    ensures EffectivePlan(RunPlan(h, before + [Sweep(s)] + after), t) == EffectivePlan(RunPlan(h, before + after), t)
    ensures Quotes(h, before + [Sweep(s)] + after) == Quotes(h, before + after)
    ensures Alike(RunPlan(h, before + [Sweep(s)] + after), RunPlan(h, before + after), t)
    decreases |after|
  {
    hide RunPlan, Quotes, ComputeExpiry, EffectivePlan, Alike, SweepHold;
    var swept := before + [Sweep(s)] + after;
    if after == [] {
      assert swept == before + [Sweep(s)] && before + after == before;
      assert swept[|swept| - 1] == Sweep(s);
      RunSnoc(h, before, Sweep(s));
      SweepAlike(RunPlan(h, before), s, t);
    } else {
      hide After;
      var front, e := after[..|after| - 1], after[|after| - 1];
      assert swept == before + [Sweep(s)] + front + [e];
      assert before + after == before + front + [e];
      assert swept[..|swept| - 1] == before + [Sweep(s)] + front && swept[|swept| - 1] == e;
      InOrderPrefix(swept, t);
      SweepUnobservable(h, before, s, front, e.at);
      RunSnoc(h, before + [Sweep(s)] + front, e);
      RunSnoc(h, before + front, e);
      AlikeAfter(RunPlan(h, before + [Sweep(s)] + front), RunPlan(h, before + front), e, e.at);
      AlikeLater(RunPlan(h, swept), RunPlan(h, before + after), e.at, t);
    }
    AlikeEffective(RunPlan(h, swept), RunPlan(h, before + after), t);
  }

  lemma AlikeLater(u: Hold, v: Hold, now: int, t: int)
    requires Alike(u, v, now) && now <= t
    ensures Alike(u, v, t)
  {
  }

  // ---- repeated purchases of one plan ----------------------------------------

  datatype Span = Span(start: int, end: int)

  /** The periods sold by the purchases of a history (a perpetual sale has none). */
  function Sold(h: Hold, es: seq<Event>): seq<Span> {
    if es == [] then []
    else
      var front := es[..|es| - 1];
      var hold := RunPlan(h, front);
      match es[|es| - 1]
      case Buy(key, days, at) =>
        if days == 0 then Sold(h, front)
        else Sold(h, front) + [Span(Base(hold, key, at), Base(hold, key, at) + days * DAY)]
      case _ => Sold(h, front)
  }

  /** The instants of the purchases of a history. */
  function BuyTimes(es: seq<Event>): seq<int> {
    if es == [] then []
    else
      var front := BuyTimes(es[..|es| - 1]);
      if es[|es| - 1].Buy? then front + [es[|es| - 1].at] else front
  }

  ghost predicate OnePlan(es: seq<Event>, key: string, days: int) {
    && key != FREE && key != "" && days > 0
    && forall i :: 0 <= i < |es| ==> es[i].Sweep? || (es[i].Buy? && es[i].key == key && es[i].days == days)
  }

  ghost predicate Covers(spans: seq<Span>, t: int) {
    exists i :: 0 <= i < |spans| && spans[i].start <= t < spans[i].end
  }

  /** What holds after every prefix of such a history. */
  ghost predicate Contiguous(h: Hold, spans: seq<Span>, key: string, length: int, now: int) {
    && (forall i :: 0 <= i < |spans| ==> spans[i].end == spans[i].start + length)
    && (forall i, j :: 0 <= i < j < |spans| ==> spans[i].end <= spans[j].start)
    && (spans == [] ==> Lapsed(h, now))
    && (spans != [] ==>
          var end := spans[|spans| - 1].end;
          && h.expires == Some(end)
          && (h.plan == key || (h.plan == FREE && end < now))
          && (forall t :: now <= t < end ==> Covers(spans, t)))
  }

  lemma CoversMore(spans: seq<Span>, s: Span, t: int)
    requires Covers(spans, t) || s.start <= t < s.end
    ensures Covers(spans + [s], t)
  {
    if Covers(spans, t) {
      var i :| 0 <= i < |spans| && spans[i].start <= t < spans[i].end;
      assert (spans + [s])[i] == spans[i];
    } else {
      assert (spans + [s])[|spans|] == s;
    }
  }

  /** What one purchase adds. */
  lemma BuyContiguous(hold: Hold, spans: seq<Span>, key: string, days: int, at: int, now: int)
    requires key != FREE && key != "" && days > 0 && at <= now
    requires Contiguous(hold, spans, key, days * DAY, at)
    ensures var start := Base(hold, key, at);
            Contiguous(After(hold, Buy(key, days, at)), spans + [Span(start, start + days * DAY)], key, days * DAY, now)
  {
    hide Covers;
    var s := Span(Base(hold, key, at), Base(hold, key, at) + days * DAY);
    forall t | now <= t < s.end ensures Covers(spans + [s], t) {
      if t < s.start {
        assert Covers(spans, t);
      }
      CoversMore(spans, s, t);
    }
  }

  lemma SweepContiguous(hold: Hold, spans: seq<Span>, key: string, length: int, at: int, now: int)
    requires at <= now && Contiguous(hold, spans, key, length, at)
    ensures Contiguous(SweepHold(hold, at), spans, key, length, now)
  {
    hide Covers;
  }

  lemma {:induction false} RunContiguous(h: Hold, es: seq<Event>, key: string, days: int, now: int)
    requires OnePlan(es, key, days) && InOrder(es, now)
    requires forall i :: 0 <= i < |es| ==> Lapsed(h, es[i].at)
    requires Lapsed(h, now)
    ensures Contiguous(RunPlan(h, es), Sold(h, es), key, days * DAY, now)
    decreases |es|
  {
    if es != [] {
      hide Contiguous, Base, SweepHold, Covers;
      var front, e := es[..|es| - 1], es[|es| - 1];
      InOrderPrefix(es, now);
      RunContiguous(h, front, key, days, e.at);
      if e.Buy? {
        BuyContiguous(RunPlan(h, front), Sold(h, front), key, days, e.at, now);
      } else {
        SweepContiguous(RunPlan(h, front), Sold(h, front), key, days * DAY, e.at, now);
      }
    }
  }

  lemma CoveredIffBeforeTheEnd(h: Hold, spans: seq<Span>, key: string, length: int, t: int)
    requires Contiguous(h, spans, key, length, t)
    ensures Covers(spans, t) <==> spans != [] && t < spans[|spans| - 1].end
  {
    if Covers(spans, t) {
      var i :| 0 <= i < |spans| && spans[i].start <= t < spans[i].end;
      if i < |spans| - 1 {
        assert spans[i].end <= spans[|spans| - 1].start;
      }
    }
  }

  /**
   * Repeated purchases of one paid plan, with sweeps anywhere between them,
   * sell pairwise disjoint periods of the full length; at any later instant
   * the user has the plan if and only if the instant lies in a sold period.
   */
  lemma PurchasesSellDisjointPeriods(h: Hold, es: seq<Event>, key: string, days: int, t: int)
    requires OnePlan(es, key, days) && InOrder(es, t)
    requires es != [] ==> Lapsed(h, es[0].at)
    requires es == [] ==> Lapsed(h, t)
    ensures forall i :: 0 <= i < |Sold(h, es)| ==> Sold(h, es)[i].end == Sold(h, es)[i].start + days * DAY
    ensures forall i, j :: 0 <= i < j < |Sold(h, es)| ==> Sold(h, es)[i].end <= Sold(h, es)[j].start
    ensures EffectivePlan(RunPlan(h, es), t) == key <==> Covers(Sold(h, es), t)
  {
    hide RunPlan, Sold, Covers;
    RunContiguous(h, es, key, days, t);
    CoveredIffBeforeTheEnd(RunPlan(h, es), Sold(h, es), key, days * DAY, t);
  }

  /** What a purchase at `at` would reach if `n` periods in all ran on from it. */
  function Reach(at: int, n: nat, length: int): int {
    at + n * length
  }

  lemma ReachNext(at: int, n: nat, length: int)
    ensures Reach(at, n + 1, length) == Reach(at, n, length) + length
  {
  }

  /** `e` is the largest of `times[i] + (|times| - i) * length`. */
  ghost predicate LatestChain(times: seq<int>, length: int, e: int) {
    && (forall i :: 0 <= i < |times| ==> Reach(times[i], |times| - i, length) <= e)
    && (exists i :: 0 <= i < |times| && Reach(times[i], |times| - i, length) == e)
  }

  lemma LatestChainSnoc(times: seq<int>, length: int, e: int, now: int)
    requires length > 0
    requires times == [] || LatestChain(times, length, e)
    ensures times == [] ==> LatestChain(times + [now], length, now + length)
    ensures times != [] ==> LatestChain(times + [now], length, Max(e, now) + length)
  {
    var more := times + [now];
    var best := if times == [] then now + length else Max(e, now) + length;
    forall i | 0 <= i < |more| ensures Reach(more[i], |more| - i, length) <= best {
      if i < |times| {
        ReachNext(times[i], |times| - i, length);
      }
    }
    if times != [] && e > now {
      var i :| 0 <= i < |times| && Reach(times[i], |times| - i, length) == e;
      ReachNext(times[i], |times| - i, length);
      assert Reach(more[i], |more| - i, length) == best;
    } else {
      assert Reach(more[|times|], |more| - |times|, length) == best;
    }
  }

  /** A purchase extends the running period, and starts at once when none runs. */
  lemma ExpiryAfterBuy(hold: Hold, spans: seq<Span>, key: string, days: int, now: int)
    requires key != FREE && key != "" && days > 0
    requires Contiguous(hold, spans, key, days * DAY, now)
    ensures ComputeExpiry(hold, key, days, now) ==
            Some((if spans == [] then now else Max(hold.expires.value, now)) + days * DAY)
  {
  }

  /**
   * The closed form: with k purchases at t_0 <= t_1 <= ..., the final expiry is
   * the largest of t_i + (k - i) * d.
   */
  lemma {:induction false} ExpiryClosedForm(h: Hold, es: seq<Event>, key: string, days: int, now: int)
    requires OnePlan(es, key, days) && InOrder(es, now)
    requires forall i :: 0 <= i < |es| ==> Lapsed(h, es[i].at)
    ensures |Sold(h, es)| == |BuyTimes(es)|
    ensures BuyTimes(es) != [] ==>
              && RunPlan(h, es).expires.Some?
              && LatestChain(BuyTimes(es), days * DAY, RunPlan(h, es).expires.value)
    decreases |es|
  {
    hide LatestChain, Covers;
    if es != [] {
      var front, e := es[..|es| - 1], es[|es| - 1];
      InOrderPrefix(es, now);
      ExpiryClosedForm(h, front, key, days, e.at);
      RunContiguous(h, front, key, days, e.at);
      var hold := RunPlan(h, front);
      if e.Buy? {
        ExpiryAfterBuy(hold, Sold(h, front), key, days, e.at);
        var last := if hold.expires.Some? then hold.expires.value else 0;
        LatestChainSnoc(BuyTimes(front), days * DAY, last, e.at);
      }
    }
  }

  // ---- the sweep of the worker -------------------------------------------------

  /** A sweep that selected the user earlier and writes the plan now. */
  function StaleSweep(h: Hold): Hold {
    h.(plan := FREE)
  }

  /** Written without looking again, the downgrade is harmless if and only if the user has no plan by then. */
  lemma StaleSweepHarmlessIff(h: Hold, now: int)
    ensures (forall t :: t >= now ==> EffectivePlan(StaleSweep(h), t) == EffectivePlan(h, t)) <==>
              EffectivePlan(h, now) == FREE
  {
    if forall t :: t >= now ==> EffectivePlan(StaleSweep(h), t) == EffectivePlan(h, t) {
      assert EffectivePlan(StaleSweep(h), now) == FREE;
    }
  }

  /** A purchase between the selection and the write is lost: the buyer has paid and is free. */
  lemma StaleSweepCanUndoAPurchase()
    ensures var h := Hold("plus", Some(10));
            var bought := After(h, Buy("plus", 30, 12));
            && Expired(h, 11)
            && EffectivePlan(bought, 13) == "plus"
            && EffectivePlan(StaleSweep(bought), 13) == FREE
            && EffectivePlan(After(After(h, Sweep(11)), Buy("plus", 30, 12)), 13) == "plus"
  {
  }

  datatype PlanUser = PlanUser(id: int, hold: Hold)
  datatype Subscription = Subscription(user: int, active: bool)

  function ExpiredIds(users: seq<PlanUser>, now: int): seq<int> {
    if users == [] then []
    else
      var front, u := ExpiredIds(users[..|users| - 1], now), users[|users| - 1];
      if Expired(u.hold, now) then front + [u.id] else front
  }

  /** The places of the users with a paid plan whose period has ended before `now`. */
  ghost function EndedPlaces(users: seq<PlanUser>, now: int): set<int> {
    set i | 0 <= i < |users| && users[i].hold.plan != "free" && users[i].hold.expires.Some?
            && users[i].hold.expires.value < now
  }

  /** The sweep selects exactly them. */
  lemma {:induction false} ExpiredIdsAre(users: seq<PlanUser>, now: int)
    ensures |ExpiredIds(users, now)| == |EndedPlaces(users, now)|
    ensures forall id :: id in ExpiredIds(users, now) <==> exists i :: i in EndedPlaces(users, now) && users[i].id == id
  {
    if users != [] {
      var front, u := users[..|users| - 1], users[|users| - 1];
      ExpiredIdsAre(front, now);
      assert forall i :: 0 <= i < |front| ==> front[i] == users[i];
      assert EndedPlaces(users, now) == EndedPlaces(front, now) + if Expired(u.hold, now) then {|front|} else {};
    }
  }

  /** The plan columns and the subscription rows. */
  datatype Tables = Tables(users: seq<PlanUser>, subs: seq<Subscription>)

  /** A purchase, a refund's revocation or another sweep of the user in row `user`. */
  datatype Late = Late(user: nat, event: Event)

  /** The subscriptions of one user, or of several, become inactive. */
  function Deactivate(subs: seq<Subscription>, ids: seq<int>): (now: seq<Subscription>)
    ensures |now| == |subs|
    ensures forall i :: 0 <= i < |subs| ==> now[i] == if subs[i].user in ids then subs[i].(active := false) else subs[i]
  {
    seq(|subs|, i requires 0 <= i < |subs| => if subs[i].user in ids then subs[i].(active := false) else subs[i])
  }

  function LateStep(t: Tables, l: Late): Tables {
    if l.user >= |t.users| then t
    else
      var u := t.users[l.user];
      var subs := match l.event
        case Buy(_, _, _) => t.subs + [Subscription(u.id, true)]
        case Revoke(key, _) => if u.hold.plan == key then Deactivate(t.subs, [u.id]) else t.subs
        case Sweep(at) => if Expired(u.hold, at) then Deactivate(t.subs, [u.id]) else t.subs;
      Tables(t.users[l.user := u.(hold := After(u.hold, l.event))], subs)
  }

  function LateRun(t: Tables, ls: seq<Late>): Tables {
    if ls == [] then t else LateStep(LateRun(t, ls[..|ls| - 1]), ls[|ls| - 1])
  }

  /** What happens to the user in row `i` alone. */
  function EventsOf(ls: seq<Late>, i: nat): seq<Event> {
    if ls == [] then []
    else
      var front := EventsOf(ls[..|ls| - 1], i);
      if ls[|ls| - 1].user == i then front + [ls[|ls| - 1].event] else front
  }

  /** Each user's columns follow that user's own history. */
  lemma {:induction false} LateHolds(t: Tables, ls: seq<Late>)
    ensures |LateRun(t, ls).users| == |t.users|
    ensures forall i :: 0 <= i < |t.users| ==>
              LateRun(t, ls).users[i] == t.users[i].(hold := RunPlan(t.users[i].hold, EventsOf(ls, i)))
  {
    if ls != [] {
      hide After;
      var front, l := ls[..|ls| - 1], ls[|ls| - 1];
      LateHolds(t, front);
      forall i | 0 <= i < |t.users|
        ensures LateRun(t, ls).users[i] == t.users[i].(hold := RunPlan(t.users[i].hold, EventsOf(ls, i)))
      {
        var es := EventsOf(front, i);
        assert (es + [l.event])[..|es|] == es;
      }
    }
  }

  lemma NothingLate(h: Hold, i: nat, now: int)
    ensures RunPlan(h, EventsOf([], i)) == h
    ensures SweepHold(h, now) == if Expired(h, now) then StaleSweep(h) else h
  {
  }

  class PlanTable {
    var tables: Tables

    constructor (tables: Tables)
      ensures this.tables == tables
    {
      this.tables := tables;
    }

    /** Others buy, are refunded or are swept while the sweep waits. */
    method Pause(meanwhile: seq<Late>)
      modifies this
      ensures tables == LateRun(old(tables), meanwhile)
    {
      var k := 0;
      while k < |meanwhile|
        invariant 0 <= k <= |meanwhile| && tables == LateRun(old(tables), meanwhile[..k])
      {
        assert meanwhile[..k + 1][..k] == meanwhile[..k];
        tables := LateStep(tables, meanwhile[k]);
        k := k + 1;
      }
      assert meanwhile[..k] == meanwhile;
    }

    /**
     * Every user who was expired when the sweep looked is free afterwards, whatever
     * happened to them in the meantime, and their subscriptions are inactive, new
     * ones included; everybody else is as their own history left them.
     */
    method ProcessExpirySweep(now: int, meanwhile: seq<Late>) returns (count: nat)
      modifies this
      ensures count == |EndedPlaces(old(tables).users, now)|
      ensures |tables.users| == |old(tables).users|
      ensures forall i :: 0 <= i < |tables.users| ==>
                var u := old(tables).users[i];
                var h := RunPlan(u.hold, EventsOf(meanwhile, i));
                tables.users[i] ==
                u.(hold := if i in EndedPlaces(old(tables).users, now) then h.(plan := "free") else h)
      ensures var late := LateRun(old(tables), meanwhile).subs;
              && |tables.subs| == |late|
              && forall j :: 0 <= j < |late| ==>
                   tables.subs[j] ==
                   if exists i :: i in EndedPlaces(old(tables).users, now) && old(tables).users[i].id == late[j].user
                   then late[j].(active := false) else late[j]
      ensures meanwhile == [] ==>
                forall i :: 0 <= i < |tables.users| ==>
                  tables.users[i].hold == SweepHold(old(tables).users[i].hold, now)
    {
      hide RunPlan, EventsOf, LateRun, LateStep, After, SweepHold;
      var users := tables.users;
      var ids: seq<int> := [];
      var selected: seq<bool> := [];
      var i := 0;
      while i < |users|
        invariant 0 <= i <= |users| && ids == ExpiredIds(users[..i], now)
        invariant |selected| == i && forall k :: 0 <= k < i ==> (selected[k] <==> Expired(users[k].hold, now))
      {
        assert users[..i + 1][..i] == users[..i];
        selected := selected + [Expired(users[i].hold, now)];
        if selected[i] {
          ids := ids + [users[i].id];
        }
        i := i + 1;
      }
      assert users[..i] == users;
      ExpiredIdsAre(users, now);
      LateHolds(tables, meanwhile);
      Pause(meanwhile);
      ghost var late := tables.users;
      i := 0;
      while i < |tables.users|
        invariant 0 <= i <= |tables.users| == |late| && tables.subs == LateRun(old(tables), meanwhile).subs
        invariant forall k :: 0 <= k < |late| ==>
                    tables.users[k] ==
                    if k < i && selected[k] then late[k].(hold := StaleSweep(late[k].hold)) else late[k]
      {
        if selected[i] {
          var u := tables.users[i];
          tables := tables.(users := tables.users[i := u.(hold := u.hold.(plan := FREE))]);
        }
        i := i + 1;
      }
      tables := tables.(subs := Deactivate(tables.subs, ids));
      forall k | 0 <= k < |users| && meanwhile == []
        ensures (if Expired(users[k].hold, now) then StaleSweep(users[k].hold) else users[k].hold) ==
                SweepHold(users[k].hold, now) && RunPlan(users[k].hold, EventsOf(meanwhile, k)) == users[k].hold
      {
        NothingLate(users[k].hold, k, now);
      }
      count := |ids|;
    }
  }
}
