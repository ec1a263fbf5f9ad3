/**
 * activation_server/store.py and app/services/license_service.py: a server that
 * hands out seats, and clients that keep working for a grace time when they
 * cannot reach it, over a network that loses and delays replies.
 */
module Licensing {
  import opened Wrappers
  import LikeSearch

  const DAY := 86_400_000_000

  type Key = string
  type Fingerprint = string

  datatype Status = Inactive | Active | Expired | Revoked | SeatLimit | Unknown

  // ---- the server ---------------------------------------------------------------

  datatype License = License(revoked: bool, seats: int, expires: Option<int>)

  /** The two tables; an install is one seat, unique by key and fingerprint. */
  datatype Server = Server(licenses: map<Key, License>, installs: set<(Key, Fingerprint)>)

  datatype Payload = Payload(ok: bool, status: Status, expires: Option<int>, allowed: int, used: nat)

  function Find(s: Server, k: Key): Option<License> {
    if k in s.licenses then Some(s.licenses[k]) else None
  }

  function LicenseState(lic: Option<License>, now: int): Status {
    match lic
    case None => Unknown
    case Some(l) =>
      if l.revoked then Revoked
      else if l.expires.Some? && l.expires.value <= now then Expired
      else Active
  }

  function Seats(installs: set<(Key, Fingerprint)>, k: Key): set<(Key, Fingerprint)> {
    set i | i in installs && i.0 == k
  }

  function Reply(ok: bool, st: Status, lic: Option<License>, used: nat): Payload {
    match lic
    case None => Payload(ok, st, None, 0, used)
    case Some(l) => Payload(ok, st, l.expires, l.seats, used)
  }

  function Issued(s: Server, k: Key, seats: int, days: Option<int>, now: int): Server {
    var expires := if days.Some? && days.value != 0 then Some(now + days.value * DAY) else None;
    s.(licenses := s.licenses[k := License(false, Max(1, seats), expires)])
  }

  function RevokedServer(s: Server, k: Key): Server {
    if k in s.licenses then s.(licenses := s.licenses[k := s.licenses[k].(revoked := true)]) else s
  }

  function Activated(s: Server, k: Key, fp: Fingerprint, now: int): (Server, Payload) {
    var lic := Find(s, k);
    var st := LicenseState(lic, now);
    var used := |Seats(s.installs, k)|;
    if st != Active then (s, Reply(false, st, lic, if lic == None then 0 else used))
    else if (k, fp) in s.installs then (s, Reply(true, Active, lic, used))
    else if used >= lic.value.seats then (s, Reply(false, SeatLimit, lic, used))
    else (s.(installs := s.installs + {(k, fp)}), Reply(true, Active, lic, used + 1))
  }

  function Checked(s: Server, k: Key, fp: Fingerprint, now: int): Payload {
    var lic := Find(s, k);
    var st := LicenseState(lic, now);
    var used := if lic == None then 0 else |Seats(s.installs, k)|;
    if st != Active then Reply(false, st, lic, used)
    else if (k, fp) !in s.installs then Reply(false, Unknown, lic, used)
    else Reply(true, Active, lic, used)
  }

  // ---- what the tables mean ---------------------------------------------------------

  /** The key is issued, not revoked, and not past its end. */
  predicate Usable(s: Server, k: Key, now: int) {
    k in s.licenses && !s.licenses[k].revoked && (s.licenses[k].expires.Some? ==> now < s.licenses[k].expires.value)
  }

  /** `LicenseState` reports revocation before expiry, and each instant at or past the end as expired. */
  lemma StateMeans(s: Server, k: Key, now: int)
    ensures var st := LicenseState(Find(s, k), now);
            && (st == Active <==> Usable(s, k, now))
            && (st == Unknown <==> k !in s.licenses)
            && (st == Revoked <==> k in s.licenses && s.licenses[k].revoked)
            && (st == Expired <==> k in s.licenses && !s.licenses[k].revoked && !Usable(s, k, now))
  {
  }

  /**
   * An issue makes the key usable for exactly the days given from now on, for ever when
   * none are given or 0, with at least one seat; other keys and all installs stay.
   */
  lemma IssueMeans(s: Server, k: Key, seats: int, days: Option<int>, now: int, t: int)
    ensures var next := Issued(s, k, seats, days, now);
            && next.installs == s.installs && next.licenses.Keys == s.licenses.Keys + {k}
            && (forall j :: j in s.licenses && j != k ==> next.licenses[j] == s.licenses[j])
            && next.licenses[k].seats == (if seats >= 1 then seats else 1)
            && (Usable(next, k, t) <==> days == None || days == Some(0) || t < now + days.value * 86_400_000_000)
  {
  }

  /** Every answer tells the end of the license and its seats, all and taken; of an unknown key it tells nothing. */
  predicate Reports(s: Server, k: Key, reply: Payload) {
    if k in s.licenses then
      reply.expires == s.licenses[k].expires && reply.allowed == s.licenses[k].seats
      && reply.used == |Seats(s.installs, k)|
    else !reply.ok && reply.expires == None && reply.allowed == 0 && reply.used == 0
  }

  /**
   * An activation is granted exactly if the key is usable and this client has its seat
   * or finds one free; then it has a seat, and nothing else ever changes.
   */
  lemma ActivationMeans(s: Server, k: Key, fp: Fingerprint, now: int)
    ensures var (next, reply) := Activated(s, k, fp, now);
            && (reply.ok <==>
                  Usable(s, k, now) && ((k, fp) in s.installs || |Seats(s.installs, k)| < s.licenses[k].seats))
            && next == (if reply.ok then s.(installs := s.installs + {(k, fp)}) else s)
            && (reply.status == SeatLimit <==> Usable(s, k, now) && !reply.ok)
            && (!Usable(s, k, now) ==> reply.status == LicenseState(Find(s, k), now))
            && (reply.ok ==> reply.status == Active)
            && Reports(next, k, reply)
  {
    var next := Activated(s, k, fp, now).0;
    if (k, fp) in s.installs {
      assert s.installs + {(k, fp)} == s.installs;
    } else {
      assert Seats(s.installs + {(k, fp)}, k) == Seats(s.installs, k) + {(k, fp)};
    }
  }

  /** A check confirms exactly the seats of usable keys. */
  lemma CheckMeans(s: Server, k: Key, fp: Fingerprint, now: int)
    ensures var reply := Checked(s, k, fp, now);
            && (reply.ok <==> Usable(s, k, now) && (k, fp) in s.installs)
            && (Usable(s, k, now) && !reply.ok ==> reply.status == Unknown)
            && (!Usable(s, k, now) ==> reply.status == LicenseState(Find(s, k), now))
            && (reply.ok ==> reply.status == Active)
            && Reports(s, k, reply)
  {
  }

  /**
   * After an answer that was lost, asking again takes no second seat: as long as
   * the license is active the retry succeeds, reports the same seats, and leaves
   * the tables as they are.
   */
  lemma RetryUsesOneSeat(s: Server, k: Key, fp: Fingerprint, now: int, later: int)
    requires Activated(s, k, fp, now).1.ok
    ensures var (next, first) := Activated(s, k, fp, now);
            var (again, second) := Activated(next, k, fp, later);
            && again == next && first.used == |Seats(next.installs, k)|
            && (second.ok <==> LicenseState(Find(next, k), later) == Active)
            && second == Checked(next, k, fp, later)
            && (second.ok ==> second == first)
  {
    var next := Activated(s, k, fp, now).0;
    if (k, fp) !in s.installs {
      assert Seats(next.installs, k) == Seats(s.installs, k) + {(k, fp)};
    } else {
      assert next == s;
    }
  }

  // ---- the client -----------------------------------------------------------------

  datatype Op = Activation | Recheck

  /** A reply of the server, with the instant at which the server answered. */
  datatype Msg = Msg(fp: Fingerprint, key: Key, op: Op, payload: Payload, at: int)

  /** The license row; `okReply` is the last reply that was ok, kept by the model only. */
  datatype Row = Row(
    key: Option<Key>, fingerprint: Option<Fingerprint>, status: Status, expires: Option<int>, allowed: Option<int>,
    lastCheck: Option<int>, lastOk: Option<int>, okReply: Option<Msg>)

  const FRESH := Row(None, None, Inactive, None, None, None, None, None)

  function Evaluate(row: Option<Row>, grace: int, now: int): bool {
    match row
    case None => false
    case Some(r) =>
      && r.status == Active
      && (r.expires.Some? ==> r.expires.value > now)
      && (r.lastOk.Some? ==> now - r.lastOk.value <= Max(0, grace))
  }

  function Received(r: Row, m: Msg, now: int): Row {
    if m.payload.ok then
      Row(if m.op == Recheck then Some(m.key) else r.key, r.fingerprint, m.payload.status, m.payload.expires,
          Some(m.payload.allowed), Some(now), Some(now), Some(m))
    else r.(status := m.payload.status, lastCheck := Some(now))
  }

  function RowOf(clients: map<Fingerprint, Row>, fp: Fingerprint): Row {
    if fp in clients then clients[fp] else FRESH
  }

  // ---- the whole system -------------------------------------------------------------

  /**
   * All replies ever given stay in `sent`; one is delivered at most `delay` after
   * the answer, possibly never, possibly out of order. `maxSeats` is the largest
   * seat count issued for a key, `revokedAt` when it was revoked if not issued since.
   */
  datatype System = System(server: Server, clients: map<Fingerprint, Row>, sent: set<Msg>, now: int,
                           maxSeats: map<Key, int>, revokedAt: map<Key, int>)

  datatype Event =
    | Tick(elapsed: nat)
    | Issue(key: Key, seats: int, days: Option<int>)
    | Revoke(key: Key)
    | SetKey(fp: Fingerprint, key: Key)
    | Serve(fp: Fingerprint, key: Key, op: Op)
    | Deliver(msg: Msg)
    | Offline(fp: Fingerprint)

  function Step(y: System, e: Event, delay: nat): System {
    match e
    case Tick(elapsed) => y.(now := y.now + elapsed)
    case Issue(k, seats, days) =>
      var most := Max(Max(1, seats), if k in y.maxSeats then y.maxSeats[k] else 0);
      y.(server := Issued(y.server, k, seats, days, y.now), maxSeats := y.maxSeats[k := most],
         revokedAt := y.revokedAt - {k})
    case Revoke(k) =>
      var at := if k in y.server.licenses && k !in y.revokedAt then y.revokedAt[k := y.now] else y.revokedAt;
      y.(server := RevokedServer(y.server, k), revokedAt := at)
    case SetKey(fp, k) => y.(clients := y.clients[fp := RowOf(y.clients, fp).(key := Some(k), fingerprint := Some(fp))])
    case Serve(fp, k, op) =>
      var (server, payload) := if op == Activation then Activated(y.server, k, fp, y.now)
          else (y.server, Checked(y.server, k, fp, y.now));
      y.(server := server, sent := y.sent + {Msg(fp, k, op, payload, y.now)})
    case Deliver(m) =>
      if m in y.sent && y.now <= m.at + delay
      then y.(clients := y.clients[m.fp := Received(RowOf(y.clients, m.fp), m, y.now)])
      else y
    case Offline(fp) => y.(clients := y.clients[fp := RowOf(y.clients, fp).(lastCheck := Some(y.now))])
  }

  function Run(start: int, es: seq<Event>, delay: nat): System {
    if es == [] then System(Server(map[], {}), map[], {}, start, map[], map[])
    else Step(Run(start, es[..|es| - 1], delay), es[|es| - 1], delay)
  }

  ghost predicate RepliesSound(y: System) {
    forall m :: m in y.sent ==>
      m.at <= y.now && (m.payload.ok <==> m.payload.status == Active)
      && (m.payload.ok ==> (m.key, m.fp) in y.server.installs)
  }

  ghost predicate SeatsSound(y: System) {
    && y.maxSeats.Keys == y.server.licenses.Keys
    && (forall k :: k in y.maxSeats ==>
        y.server.licenses[k].seats <= y.maxSeats[k] && |Seats(y.server.installs, k)| <= y.maxSeats[k])
    && (forall i :: i in y.server.installs ==> i.0 in y.server.licenses)
  }

  /** An enabled row goes back to an ok reply, answered no more than the delay before it came. */
  ghost predicate RowSound(y: System, fp: Fingerprint, r: Row, delay: nat) {
    r.status == Active ==>
      && r.okReply.Some? && r.okReply.value in y.sent && r.okReply.value.fp == fp && r.okReply.value.payload.ok
      && r.expires == r.okReply.value.payload.expires
      && r.lastOk.Some? && r.okReply.value.at <= r.lastOk.value <= r.okReply.value.at + delay && r.lastOk.value <= y.now
  }

  ghost predicate RevocationsSound(y: System) {
    forall k :: k in y.revokedAt ==>
      && k in y.server.licenses && y.server.licenses[k].revoked && y.revokedAt[k] <= y.now
      && forall m :: m in y.sent && m.payload.ok && m.key == k ==> m.at <= y.revokedAt[k]
  }

  ghost predicate Sound(y: System, delay: nat) {
    && RepliesSound(y) && SeatsSound(y) && RevocationsSound(y)
    && forall fp :: fp in y.clients ==> RowSound(y, fp, y.clients[fp], delay)
  }

  lemma StepKeepsReplies(y: System, e: Event, delay: nat)
    requires RepliesSound(y)
    ensures RepliesSound(Step(y, e, delay))
  {
  }

  lemma ActivatedSeats(s: Server, k: Key, fp: Fingerprint, now: int, j: Key)
    ensures var next := Activated(s, k, fp, now).0;
            && next.licenses == s.licenses
            && (forall i :: i in next.installs ==> i in s.installs || (i == (k, fp) && k in s.licenses))
            && (|Seats(next.installs, j)| == |Seats(s.installs, j)|
                || (j == k && k in s.licenses && |Seats(next.installs, j)| <= s.licenses[k].seats))
  {
    var next := Activated(s, k, fp, now).0;
    if next.installs != s.installs && j == k {
      assert Seats(next.installs, k) == Seats(s.installs, k) + {(k, fp)};
    } else {
      assert Seats(next.installs, j) == Seats(s.installs, j);
    }
  }

  lemma IssueKeepsSeats(y: System, k: Key, seats: int, days: Option<int>, delay: nat)
    requires SeatsSound(y)
    ensures SeatsSound(Step(y, Issue(k, seats, days), delay))
  {
    hide Seats;
    if k !in y.maxSeats {
      NoSeats(y.server.installs, k);
    }
  }

  lemma NoSeats(installs: set<(Key, Fingerprint)>, k: Key)
    requires forall i :: i in installs ==> i.0 != k
    ensures |Seats(installs, k)| == 0
  {
    assert Seats(installs, k) == {};
  }

  lemma ServeKeepsSeats(y: System, fp: Fingerprint, k: Key, op: Op, delay: nat)
    requires SeatsSound(y)
    ensures SeatsSound(Step(y, Serve(fp, k, op), delay))
  {
    hide Activated, Checked, Seats;
    if op == Activation {
      var next := Step(y, Serve(fp, k, op), delay);
      ActivatedSeats(y.server, k, fp, y.now, k);
      forall j | j in y.maxSeats ensures |Seats(next.server.installs, j)| <= y.maxSeats[j] {
        ActivatedSeats(y.server, k, fp, y.now, j);
      }
    }
  }

  lemma StepKeepsSeats(y: System, e: Event, delay: nat)
    requires SeatsSound(y)
    ensures SeatsSound(Step(y, e, delay))
  {
    hide Seats, Issued, Activated, Checked;
    match e
    case Issue(k, seats, days) =>
      hide SeatsSound, Step;
      IssueKeepsSeats(y, k, seats, days, delay);
    case Serve(fp, k, op) =>
      hide SeatsSound, Step;
      ServeKeepsSeats(y, fp, k, op, delay);
    case _ =>
  }

  lemma StepKeepsRevocations(y: System, e: Event, delay: nat)
    requires RepliesSound(y) && RevocationsSound(y)
    ensures RevocationsSound(Step(y, e, delay))
  {
  }

  lemma StepKeepsRows(y: System, e: Event, delay: nat)
    requires Sound(y, delay)
    ensures forall fp :: fp in Step(y, e, delay).clients ==>
              RowSound(Step(y, e, delay), fp, Step(y, e, delay).clients[fp], delay)
  {
    var next := Step(y, e, delay);
    forall fp | fp in next.clients ensures RowSound(next, fp, next.clients[fp], delay) {
      if fp in y.clients {
        assert RowSound(y, fp, y.clients[fp], delay);
      }
    }
  }

  lemma {:induction false} RunSound(start: int, es: seq<Event>, delay: nat)
    ensures Sound(Run(start, es, delay), delay)
  {
    if es != [] {
      var y := Run(start, es[..|es| - 1], delay);
      var e := es[|es| - 1];
      RunSound(start, es[..|es| - 1], delay);
      StepKeepsReplies(y, e, delay);
      StepKeepsSeats(y, e, delay);
      StepKeepsRevocations(y, e, delay);
      StepKeepsRows(y, e, delay);
    }
  }

  // ---- what the protocol guarantees ----------------------------------------------------

  /** A client is enabled only if the server answered it ok no earlier than the grace and the delay before. */
  lemma EnabledMeansRecentlyOk(start: int, es: seq<Event>, delay: nat, grace: nat, fp: Fingerprint)
    requires var y := Run(start, es, delay); fp in y.clients && Evaluate(Some(y.clients[fp]), grace, y.now)
    ensures var y := Run(start, es, delay);
            exists m :: m in y.sent && m.fp == fp && m.payload.ok && y.now - grace - delay <= m.at <= y.now
                        && (m.payload.expires.Some? ==> y.now < m.payload.expires.value)
  {
    RunSound(start, es, delay);
    var y := Run(start, es, delay);
    assert RowSound(y, fp, y.clients[fp], delay);
    var m := y.clients[fp].okReply.value;
    assert m in y.sent && m.fp == fp && m.payload.ok && y.now - grace - delay <= m.at <= y.now;
  }

  /** Past the grace and the delay after a revocation, no client of that key is enabled. */
  lemma RevokedClientsDegrade(start: int, es: seq<Event>, delay: nat, grace: nat, fp: Fingerprint, k: Key)
    requires var y := Run(start, es, delay);
             && k in y.revokedAt && y.now > y.revokedAt[k] + grace + delay
             && fp in y.clients && y.clients[fp].okReply.Some? && y.clients[fp].okReply.value.key == k
    ensures var y := Run(start, es, delay); !Evaluate(Some(y.clients[fp]), grace, y.now)
  {
    RunSound(start, es, delay);
    var y := Run(start, es, delay);
    assert RowSound(y, fp, y.clients[fp], delay);
  }

  /** No client outlives the revocation of its key by more than the grace. */
  ghost predicate DegradedPast(row: Row, revoked: int, grace: nat) {
    forall t :: t > revoked + grace ==> !Evaluate(Some(row), grace, t)
  }

  /**
   * Exactly when a client of a revoked key is degraded at all instants past the
   * revocation and the grace: when it is not enabled any more, when its last ok
   * reply had come by the revocation, or when the license ends by then anyway.
   */
  lemma DegradesByGraceIff(start: int, es: seq<Event>, delay: nat, grace: nat, fp: Fingerprint, k: Key)
    requires var y := Run(start, es, delay);
             && k in y.revokedAt && fp in y.clients
             && y.clients[fp].okReply.Some? && y.clients[fp].okReply.value.key == k
    ensures var y := Run(start, es, delay);
            var (row, r) := (y.clients[fp], y.revokedAt[k]);
            && (row.status == Active ==> row.lastOk.Some?)
            && (DegradedPast(row, r, grace) <==>
                  || row.status != Active
                  || row.lastOk.value <= r
                  || (row.expires.Some? && row.expires.value <= r + grace + 1))
  {
    hide Run;
    RunSound(start, es, delay);
    var y := Run(start, es, delay);
    var row, r := y.clients[fp], y.revokedAt[k];
    assert RowSound(y, fp, row, delay);
    if row.status == Active && row.lastOk.value > r && (row.expires.Some? ==> row.expires.value > r + grace + 1) {
      assert Evaluate(Some(row), grace, r + grace + 1);
    }
  }

  /** Without delay the grace alone is enough, for every client of the revoked key. */
  lemma PromptRepliesDegradeByGrace(start: int, es: seq<Event>, grace: nat, fp: Fingerprint, k: Key)
    requires var y := Run(start, es, 0);
             && k in y.revokedAt && fp in y.clients
             && y.clients[fp].okReply.Some? && y.clients[fp].okReply.value.key == k
    ensures var y := Run(start, es, 0); DegradedPast(y.clients[fp], y.revokedAt[k], grace)
  {
    hide Run;
    RunSound(start, es, 0);
    var y := Run(start, es, 0);
    assert RowSound(y, fp, y.clients[fp], 0);
    DegradesByGraceIff(start, es, 0, grace, fp, k);
  }

  const LATE := Msg("f", "k", Activation, Payload(true, Active, None, 1, 1), 0)

  /** A reply that is on its way while its key is revoked. */
  const LATE_REPLY: seq<Event> := [
    Issue("k", 1, None), Serve("f", "k", Activation), Tick(1), Revoke("k"), Tick(1), Deliver(LATE), Tick(10)
  ]

  lemma LateIsServed(y: System, delay: nat)
    requires y == System(Server(map[], {}), map[], {}, 0, map[], map[])
    ensures var served := Step(Step(y, LATE_REPLY[0], delay), LATE_REPLY[1], delay);
            && served.sent == {LATE} && served.clients == map[] && served.now == 0 && served.revokedAt == map[]
            && "k" in served.server.licenses
  {
    assert Seats(Step(y, LATE_REPLY[0], delay).server.installs, "k") == {};
  }

  lemma LateIsDelivered(y: System)
    requires y.sent == {LATE} && y.clients == map[] && y.now == 0 && y.revokedAt == map[] && "k" in y.server.licenses
    ensures var revoked := Step(Step(y, Tick(1), 5), Revoke("k"), 5);
            var end := Step(Step(Step(revoked, Tick(1), 5), Deliver(LATE), 5), Tick(10), 5);
            && end.now == 12 && "k" in end.revokedAt && end.revokedAt["k"] == 1
            && "f" in end.clients && end.clients["f"] == Received(FRESH, LATE, 2)
  {
  }

  /** With a delay it is not: a client is enabled past the revocation and the grace. */
  lemma LateReplyOutlivesTheGrace()
    ensures var y := Run(0, LATE_REPLY, 5);
            && "k" in y.revokedAt && y.now > y.revokedAt["k"] + 10
            && "f" in y.clients && y.clients["f"].okReply.Some? && y.clients["f"].okReply.value.key == "k"
            && Evaluate(Some(y.clients["f"]), 10, y.now)
  {
    var es := LATE_REPLY;
    assert Run(0, es[..0], 5) == System(Server(map[], {}), map[], {}, 0, map[], map[]);
    hide Run, Step;
    LateIsServed(Run(0, es[..0], 5), 5);
    RunPrefix(0, es, 5, 0);
    RunPrefix(0, es, 5, 1);
    LateIsDelivered(Run(0, es[..2], 5));
    RunPrefix(0, es, 5, 2);
    RunPrefix(0, es, 5, 3);
    RunPrefix(0, es, 5, 4);
    RunPrefix(0, es, 5, 5);
    RunPrefix(0, es, 5, 6);
    assert es[..7] == es;
  }

  lemma RunPrefix(start: int, es: seq<Event>, delay: nat, k: nat)
    requires k < |es|
    ensures Run(start, es[..k + 1], delay) == Step(Run(start, es[..k], delay), es[k], delay)
  {
    assert es[..k + 1][..k] == es[..k];
  }

  /** The clients whose last ok reply was for the key and who are not rejected since. */
  ghost function Holders(y: System, k: Key): set<Fingerprint> {
    set fp | fp in y.clients && y.clients[fp].status == Active && y.clients[fp].okReply.Some?
    && y.clients[fp].okReply.value.key == k
  }

  lemma {:induction false} PairsOf(fps: set<Fingerprint>, k: Key, pairs: set<(Key, Fingerprint)>)
    requires forall fp :: fp in fps ==> (k, fp) in pairs
    ensures |fps| <= |pairs|
    decreases |fps|
  {
    if fps != {} {
      var fp :| fp in fps;
      PairsOf(fps - {fp}, k, pairs - {(k, fp)});
    }
  }

  predicate IssuesSeats(e: Event, k: Key, n: int) {
    e.Issue? && e.key == k && Max(1, e.seats) == n
  }

  /** `maxSeats` is the largest seat count any issue of the key has set. */
  lemma {:induction false} MaxSeatsIsLargestIssued(start: int, es: seq<Event>, delay: nat, k: Key)
    ensures var most := Run(start, es, delay).maxSeats;
            && (forall i, n :: 0 <= i < |es| && IssuesSeats(es[i], k, n) ==> k in most && n <= most[k])
            && (k in most ==> exists i :: 0 <= i < |es| && IssuesSeats(es[i], k, most[k]))
  {
    if es != [] {
      var front, e := es[..|es| - 1], es[|es| - 1];
      MaxSeatsIsLargestIssued(start, front, delay, k);
      var before, most := Run(start, front, delay).maxSeats, Run(start, es, delay).maxSeats;
      if k in most {
        if k in before && most[k] == before[k] {
          var i :| 0 <= i < |front| && IssuesSeats(front[i], k, before[k]);
          assert IssuesSeats(es[i], k, most[k]);
        } else {
          assert IssuesSeats(es[|es| - 1], k, most[k]);
        }
      }
    }
  }

  /** The enabled clients of a key never exceed the largest seat count issued for it. */
  lemma HoldersWithinSeats(start: int, es: seq<Event>, delay: nat, k: Key)
    ensures var y := Run(start, es, delay);
            |Holders(y, k)| <= if k in y.maxSeats then y.maxSeats[k] else 0
  {
    RunSound(start, es, delay);
    var y := Run(start, es, delay);
    forall fp | fp in Holders(y, k) ensures (k, fp) in Seats(y.server.installs, k) {
      assert RowSound(y, fp, y.clients[fp], delay);
    }
    PairsOf(Holders(y, k), k, Seats(y.server.installs, k));
    if k !in y.maxSeats {
      assert Seats(y.server.installs, k) == {};
    }
  }

  /** A free seat enables its client exactly until the grace or the license ends. */
  lemma SeatIsUsable(s: Server, k: Key, fp: Fingerprint, now: int, grace: nat, later: int)
    requires LicenseState(Find(s, k), now) == Active && |Seats(s.installs, k)| < s.licenses[k].seats
    ensures var reply := Activated(s, k, fp, now).1;
            && reply.ok
            && (now <= later ==>
                 (Evaluate(Some(Received(FRESH, Msg(fp, k, Activation, reply, now), now)), grace, later) <==>
                  later <= now + grace && LicenseState(Find(s, k), later) == Active))
  {
  }

  /** Activations of one key by several clients in turn, with the answers. */
  function ActivateAll(s: Server, k: Key, fps: seq<Fingerprint>, now: int): (Server, seq<bool>) {
    if fps == [] then (s, [])
    else
      var (before, oks) := ActivateAll(s, k, fps[..|fps| - 1], now);
      var (after, reply) := Activated(before, k, fps[|fps| - 1], now);
      (after, oks + [reply.ok])
  }

  /** The bound is reached: of the clients that ask in turn, exactly as many as there are free seats are let in. */
  lemma {:induction false} ExactlyTheSeatsAreUsable(s: Server, k: Key, fps: seq<Fingerprint>, now: int)
    requires LicenseState(Find(s, k), now) == Active && |Seats(s.installs, k)| <= s.licenses[k].seats
    requires forall i :: 0 <= i < |fps| ==> (k, fps[i]) !in s.installs
    requires forall i, j :: 0 <= i < j < |fps| ==> fps[i] != fps[j]
    ensures var (after, oks) := ActivateAll(s, k, fps, now);
            && after.licenses == s.licenses && |oks| == |fps|
            && (forall i :: 0 <= i < |fps| ==> (oks[i] <==> |Seats(s.installs, k)| + i < s.licenses[k].seats))
            && |Seats(after.installs, k)| == Min(|Seats(s.installs, k)| + |fps|, s.licenses[k].seats)
            && (forall i :: i in after.installs ==> i in s.installs || exists j :: 0 <= j < |fps| && i == (k, fps[j]))
  {
    if fps != [] {
      var front, fp := fps[..|fps| - 1], fps[|fps| - 1];
      ExactlyTheSeatsAreUsable(s, k, front, now);
      var (before, oks) := ActivateAll(s, k, front, now);
      var after := Activated(before, k, fp, now).0;
      assert (k, fp) !in before.installs;
      if after.installs != before.installs {
        assert Seats(after.installs, k) == Seats(before.installs, k) + {(k, fp)};
        assert fps[|fps| - 1] == fp;
      }
    }
  }

  // ---- the instant of a revocation ----------------------------------------------------------

  predicate IsRevoked(y: System, k: Key) {
    k in y.server.licenses && y.server.licenses[k].revoked
  }

  /** Event `i` of the run revoked the key, which was not revoked before it and has been ever since. */
  ghost predicate TurnedRevoked(start: int, es: seq<Event>, delay: nat, k: Key, i: nat) {
    && i < |es| && es[i] == Revoke(k) && k in Run(start, es[..i], delay).server.licenses
    && !IsRevoked(Run(start, es[..i], delay), k)
    && forall j :: i < j <= |es| ==> IsRevoked(Run(start, es[..j], delay), k)
  }

  lemma TurnedRevokedSnoc(start: int, es: seq<Event>, delay: nat, k: Key, i: nat, e: Event)
    requires IsRevoked(Run(start, es + [e], delay), k)
    requires TurnedRevoked(start, es, delay, k, i) ||
             (i == |es| && e == Revoke(k) && k in Run(start, es, delay).server.licenses
              && !IsRevoked(Run(start, es, delay), k))
    ensures TurnedRevoked(start, es + [e], delay, k, i) && (es + [e])[..i] == es[..i]
  {
    hide Run, IsRevoked;
    var more := es + [e];
    assert forall j :: 0 <= j <= |es| ==> more[..j] == es[..j];
    assert more[..|more|] == more && es[..|es|] == es;
  }

  /** `revokedAt` holds exactly the revoked keys, each with the instant at which it turned revoked. */
  lemma {:induction false} RevokedAtMeans(start: int, es: seq<Event>, delay: nat, k: Key)
    ensures var y := Run(start, es, delay);
            && (k in y.revokedAt <==> IsRevoked(y, k))
            && (k in y.revokedAt ==>
                  exists i: nat :: i < |es| && TurnedRevoked(start, es, delay, k, i)
                                   && Run(start, es[..i], delay).now == y.revokedAt[k])
  {
    hide TurnedRevoked, Run;
    if es == [] {
      NothingYet(start, delay);
    } else {
      var front, e := es[..|es| - 1], es[|es| - 1];
      var y := Run(start, front, delay);
      RevokedAtMeans(start, front, delay, k);
      RunPrefix(start, es, delay, |es| - 1);
      assert es == front + [e] && es[..|es|] == es;
      RevocationStep(y, e, delay, k);
      if k in Run(start, es, delay).revokedAt {
        if k in y.revokedAt {
          var i: nat :| i < |front| && TurnedRevoked(start, front, delay, k, i)
                        && Run(start, front[..i], delay).now == y.revokedAt[k];
          TurnedRevokedSnoc(start, front, delay, k, i, e);
          assert Run(start, es[..i], delay).now == y.revokedAt[k];
        } else {
          TurnedRevokedSnoc(start, front, delay, k, |front|, e);
          assert front[..|front|] == front;
          assert Run(start, es[..|front|], delay).now == y.now;
        }
      }
    }
  }

  lemma NothingYet(start: int, delay: nat)
    ensures var y := Run(start, [], delay); y.revokedAt == map[] && y.server.licenses == map[]
  {
  }

  lemma RevocationStep(y: System, e: Event, delay: nat, k: Key)
    requires k in y.revokedAt <==> IsRevoked(y, k)
    ensures var next := Step(y, e, delay);
            && (k in next.revokedAt <==> IsRevoked(next, k))
            && (k in next.revokedAt && k in y.revokedAt ==> next.revokedAt[k] == y.revokedAt[k])
            && (k in next.revokedAt && k !in y.revokedAt ==>
                  e == Revoke(k) && next.revokedAt[k] == y.now && k in y.server.licenses)
  {
    hide Checked;
    if e.Serve? {
      ActivatedSeats(y.server, e.key, e.fp, y.now, k);
    }
  }

  // ---- the end of an issue ---------------------------------------------------------------

  /** Key `k` ends at `end`, and every ok reply for it that is not in `before` says so. */
  ghost predicate Ends(y: System, k: Key, end: int, before: set<Msg>) {
    && k in y.server.licenses && y.server.licenses[k].expires == Some(end)
    && forall m :: m in y.sent && m !in before && m.key == k && m.payload.ok ==> m.payload.expires == Some(end)
  }

  lemma StepKeepsEnd(y: System, e: Event, delay: nat, k: Key, end: int, before: set<Msg>)
    requires Ends(y, k, end, before) && !(e.Issue? && e.key == k)
    ensures Ends(Step(y, e, delay), k, end, before)
  {
    if e.Serve? && e.key == k {
      ActivationMeans(y.server, k, e.fp, y.now);
      CheckMeans(y.server, k, e.fp, y.now);
    }
  }

  /** An issue of `k` for `days` days at place `i` of the run, and none of that key after it. */
  ghost predicate LastIssue(es: seq<Event>, i: nat, k: Key, days: int) {
    && i < |es| && es[i].Issue? && es[i].key == k && es[i].days == Some(days) && days != 0
    && forall j :: i < j < |es| ==> !(es[j].Issue? && es[j].key == k)
  }

  lemma {:induction false} EndStays(start: int, es: seq<Event>, delay: nat, i: nat, k: Key, days: int)
    requires LastIssue(es, i, k, days)
    ensures var issued := Run(start, es[..i], delay);
            Ends(Run(start, es, delay), k, issued.now + days * 86_400_000_000, issued.sent)
    decreases |es|
  {
    var front, e := es[..|es| - 1], es[|es| - 1];
    var y := Run(start, es[..i], delay);
    if i == |es| - 1 {
      IssueMeans(y.server, k, e.seats, Some(days), y.now, 0);
    } else {
      assert front[..i] == es[..i];
      EndStays(start, front, delay, i, k, days);
      StepKeepsEnd(Run(start, front, delay), e, delay, k, y.now + days * 86_400_000_000, y.sent);
    }
  }

  /**
   * A key that was issued for some days enables no client past their end: neither one
   * whose ok reply was given after the issue, nor any client if the key was new.
   */
  lemma EnabledBeforeTheEnd(start: int, es: seq<Event>, delay: nat, grace: nat, fp: Fingerprint, i: nat, k: Key,
                            days: int)
    requires LastIssue(es, i, k, days)
    requires var y := Run(start, es, delay);
             && fp in y.clients && Evaluate(Some(y.clients[fp]), grace, y.now)
             && y.clients[fp].okReply.Some? && y.clients[fp].okReply.value.key == k
    requires var issued := Run(start, es[..i], delay);
             k !in issued.server.licenses || Run(start, es, delay).clients[fp].okReply.value !in issued.sent
    ensures Run(start, es, delay).now < Run(start, es[..i], delay).now + days * 86_400_000_000
  {
    var y, issued := Run(start, es, delay), Run(start, es[..i], delay);
    RunSound(start, es, delay);
    RunSound(start, es[..i], delay);
    EndStays(start, es, delay, i, k, days);
    assert RowSound(y, fp, y.clients[fp], delay);
    var m := y.clients[fp].okReply.value;
    assert m in issued.sent ==> (m.key, m.fp) in issued.server.installs;
  }

  // ---- the two programs ------------------------------------------------------------------

  class ActivationStore {
    var tables: Server

    constructor ()
      ensures tables == Server(map[], {})
    {
      tables := Server(map[], {});
    }

    /** Issuing again makes the key active again with the new seats, and takes no install away. */
    method IssueKey(k: Key, seats: int, days: Option<int>, now: int)
      modifies this
      ensures tables == Issued(old(tables), k, seats, days, now)
      ensures tables.installs == old(tables).installs && tables.licenses.Keys == old(tables).licenses.Keys + {k}
      ensures forall j :: j in old(tables).licenses && j != k ==> tables.licenses[j] == old(tables).licenses[j]
      ensures tables.licenses[k].seats == if seats >= 1 then seats else 1
      ensures forall t ::
                LicenseState(Find(tables, k), t) == Active <==>
                days == None || days == Some(0) || t < now + days.value * 86_400_000_000
    {
      var expires: Option<int> := None;
      if days.Some? && days.value != 0 {
        expires := Some(now + days.value * DAY);
      }
      if k !in tables.licenses {
        tables := tables.(licenses := tables.licenses[k := License(false, Max(1, seats), expires)]);
      } else {
        var row := tables.licenses[k];
        row := row.(revoked := false);
        row := row.(seats := Max(1, seats));
        row := row.(expires := expires);
        tables := tables.(licenses := tables.licenses[k := row]);
      }
    }

    method RevokeKey(k: Key) returns (found: bool)
      modifies this
      ensures found <==> k in old(tables).licenses
      ensures tables == RevokedServer(old(tables), k)
      ensures found ==> forall t :: LicenseState(Find(tables, k), t) == Revoked
      ensures tables.installs == old(tables).installs && tables.licenses.Keys == old(tables).licenses.Keys
      ensures forall j :: j in old(tables).licenses && j != k ==> tables.licenses[j] == old(tables).licenses[j]
    {
      if k !in tables.licenses {
        return false;
      }
      tables := tables.(licenses := tables.licenses[k := tables.licenses[k].(revoked := true)]);
      found := true;
    }

    method Activate(k: Key, fp: Fingerprint, now: int) returns (reply: Payload)
      modifies this
      ensures (tables, reply) == Activated(old(tables), k, fp, now)
      ensures reply.ok <==>
              && Usable(old(tables), k, now)
              && ((k, fp) in old(tables).installs || |Seats(old(tables).installs, k)| < old(tables).licenses[k].seats)
      ensures tables == if reply.ok then old(tables).(installs := old(tables).installs + {(k, fp)}) else old(tables)
    {
      ActivationMeans(tables, k, fp, now);
      var lic := Find(tables, k);
      var st := LicenseState(lic, now);
      if st != Active {
        var used := if lic == None then 0 else |Seats(tables.installs, k)|;
        return Reply(false, st, lic, used);
      }
      if (k, fp) in tables.installs {
        return Reply(true, Active, lic, |Seats(tables.installs, k)|);
      }
      var used := |Seats(tables.installs, k)|;
      if used >= lic.value.seats {
        return Reply(false, SeatLimit, lic, used);
      }
      tables := tables.(installs := tables.installs + {(k, fp)});
      reply := Reply(true, Active, lic, used + 1);
    }

    method Check(k: Key, fp: Fingerprint, now: int) returns (reply: Payload)
      ensures reply == Checked(tables, k, fp, now)
      ensures reply.ok <==> Usable(tables, k, now) && (k, fp) in tables.installs
    {
      var lic := Find(tables, k);
      var st := LicenseState(lic, now);
      var used := if lic == None then 0 else |Seats(tables.installs, k)|;
      if st != Active {
        return Reply(false, st, lic, used);
      }
      if (k, fp) !in tables.installs {
        return Reply(false, Unknown, lic, used);
      }
      reply := Reply(true, Active, lic, used);
    }
  }

  datatype Outcome = Accepted | Rejected | Unreachable

  function OutcomeOf(answer: Option<Msg>): Outcome {
    if answer == None then Unreachable else if answer.value.payload.ok then Accepted else Rejected
  }

  class LicenseService {
    const fp: Fingerprint
    const configured: Key
    var row: Option<Row>

    constructor (fp: Fingerprint, configured: Key)
      ensures this.fp == fp && this.configured == configured && row == None
      ensures forall grace, t :: !Evaluate(row, grace, t)
    {
      this.fp, this.configured, this.row := fp, configured, None;
    }

    /** The row as `_ensure_row` leaves it. */
    function Ensured(): Row
      reads this
    {
      if row == None then FRESH.(fingerprint := Some(fp)) else row.value
    }

    method EnsureRow()
      modifies this
      ensures row == Some(old(Ensured()))
    {
      if row == None {
        row := Some(FRESH.(fingerprint := Some(fp)));
      }
    }

    /** From then on the client is enabled exactly until the grace or the license ends. */
    method ApplyServerState(m: Msg, now: int)
      requires row.Some?
      modifies this
      ensures row ==
                Some(old(row).value.(status := m.payload.status, expires := m.payload.expires,
                                     allowed := Some(m.payload.allowed), lastOk := Some(now), lastCheck := Some(now),
                                     okReply := Some(m)))
      ensures forall grace, t :: t >= now ==>
                (Evaluate(row, grace, t) <==>
                  && m.payload.status == Active && t - now <= Max(0, grace)
                  && (m.payload.expires.Some? ==> t < m.payload.expires.value))
    {
      var r := row.value;
      r := r.(status := m.payload.status);
      r := r.(expires := m.payload.expires);
      r := r.(allowed := Some(m.payload.allowed));
      r := r.(lastOk := Some(now), okReply := Some(m));
      r := r.(lastCheck := r.lastOk);
      row := Some(r);
    }

    /** What an answer does to the row is `Received`; no answer leaves all but the check time. */
    method Handle(answer: Option<Msg>, now: int) returns (outcome: Outcome)
      requires row.Some?
      modifies this
      ensures outcome == OutcomeOf(answer) && (outcome == Unreachable <==> answer == None)
      ensures outcome == Accepted <==> answer.Some? && answer.value.payload.ok
      ensures answer == None ==> row == Some(old(row).value.(lastCheck := Some(now)))
      ensures answer.Some? ==> row == Some(Received(old(row).value, answer.value, now))
      ensures answer.Some? && answer.value.payload.ok ==>
                && row.value.lastOk == row.value.lastCheck == Some(now)
                && row.value.status == answer.value.payload.status && row.value.expires == answer.value.payload.expires
                && row.value.key == (if answer.value.op == Recheck then Some(answer.value.key) else old(row).value.key)
      ensures answer.Some? && !answer.value.payload.ok ==>
                row == Some(old(row).value.(status := answer.value.payload.status, lastCheck := Some(now)))
      ensures answer.Some? && answer.value.payload.status != Active ==> forall grace, t :: !Evaluate(row, grace, t)
    {
      if answer == None {
        row := Some(row.value.(lastCheck := Some(now)));
        return Unreachable;
      }
      var m := answer.value;
      if m.payload.ok {
        if m.op == Recheck {
          row := Some(row.value.(key := Some(m.key)));
        }
        ApplyServerState(m, now);
        return Accepted;
      }
      row := Some(row.value.(status := m.payload.status));
      row := Some(row.value.(lastCheck := Some(now)));
      outcome := Rejected;
    }

    /** The stripped key is stored before the server is asked, and stays whatever it says. */
    method Activate(k: Key, answer: Option<Msg>, now: int) returns (outcome: Outcome)
      requires answer.Some? ==>
                 answer.value.fp == fp && answer.value.key == LikeSearch.Strip(k) && answer.value.op == Activation
      modifies this
      ensures row.Some? && row.value.key == Some(LikeSearch.Strip(k)) && row.value.fingerprint == Some(fp)
      ensures (outcome == Unreachable <==> answer == None)
              && (outcome == Accepted <==> answer.Some? && answer.value.payload.ok)
      ensures outcome == Accepted ==> row.value.lastOk == Some(now)
      ensures var before := old(Ensured()).(key := Some(LikeSearch.Strip(k)), fingerprint := Some(fp));
              row == Some(if answer == None then before.(lastCheck := Some(now))
                          else Received(before, answer.value, now))
    {
      EnsureRow();
      row := Some(row.value.(key := Some(LikeSearch.Strip(k))));
      row := Some(row.value.(fingerprint := Some(fp)));
      outcome := Handle(answer, now);
    }

    /** The key that a re-check asks about: the row's, or the configured one. */
    function AskedKey(): Key
      reads this
    {
      if row.Some? && row.value.key.Some? && row.value.key.value != "" then row.value.key.value else configured
    }

    /** The fingerprint it asks for: the row's, or this machine's. */
    function AskedFingerprint(): Fingerprint
      reads this
    {
      if row.Some? && row.value.fingerprint.Some? && row.value.fingerprint.value != ""
          then row.value.fingerprint.value else fp
    }

    method Check(answer: Option<Msg>, now: int) returns (outcome: Outcome)
      requires answer.Some? ==>
                 answer.value.fp == AskedFingerprint() && answer.value.key == AskedKey() && answer.value.op == Recheck
      modifies this
      ensures row.Some?
      ensures old(AskedKey()) != "" ==>
                && (outcome == Unreachable <==> answer == None)
                && (outcome == Accepted <==> answer.Some? && answer.value.payload.ok)
                && (outcome == Accepted ==> row.value.lastOk == Some(now))
      ensures old(AskedKey()) == "" ==> outcome == Rejected && row == Some(old(Ensured()))
      ensures old(AskedKey()) != "" ==>
                row == Some(if answer == None then old(Ensured()).(lastCheck := Some(now))
                            else Received(old(Ensured()), answer.value, now))
    {
      EnsureRow();
      var key := if row.value.key.Some? && row.value.key.value != "" then row.value.key.value else configured;
      if key == "" {
        return Rejected;
      }
      outcome := Handle(answer, now);
    }
  }
}
