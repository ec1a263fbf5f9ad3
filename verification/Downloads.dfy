/**
 * The atomic download claim of app/services/media_service.py and the delivery
 * that takes it in app/bot/delivery.py, with deliveries of one file running
 * against each other and crashing anywhere.
 */
module Downloads {
  import opened Wrappers
  import PaywallService

  /** The columns of a media row that deliveries and moderators write. */
  datatype Media = Media(approved: bool, active: bool, count: int)

  /** What is committed against the row. A lost slot belongs to a delivery that crashed. */
  datatype Event = Claim | Finish | Release | Lose | Moderate(approved: bool, active: bool)

  // ---- the slots over whole runs ------------------------------------------------

  predicate HasRoom(m: Media, limit: Option<nat>) {
    limit == None || m.count < limit.value
  }

  predicate Claimable(m: Media, limit: Option<nat>) {
    m.active && m.approved && HasRoom(m, limit)
  }

  function After(m: Media, e: Event): Media {
    match e
    case Claim => m.(count := m.count + 1)
    case Finish => m
    case Release => if m.count > 0 then m.(count := m.count - 1) else m
    case Lose => m
    case Moderate(approved, active) => m.(approved := approved, active := active)
  }

  function Number(log: seq<Event>, e: Event): nat {
    if log == [] then 0 else Number(log[..|log| - 1], e) + if log[|log| - 1] == e then 1 else 0
  }

  /** Claims that no event has resolved yet. */
  function Unresolved(log: seq<Event>): int {
    Number(log, Claim) - Number(log, Finish) - Number(log, Release) - Number(log, Lose)
  }

  function Replay(m: Media, log: seq<Event>): Media {
    if log == [] then m else After(Replay(m, log[..|log| - 1]), log[|log| - 1])
  }

  /** A claim needs a matching row, and only an unresolved claim can be resolved. */
  predicate Can(m: Media, open: int, limit: Option<nat>, e: Event) {
    match e
    case Claim => Claimable(m, limit)
    case Moderate(_, _) => true
    case _ => open > 0
  }

  ghost predicate Possible(m: Media, limit: Option<nat>, log: seq<Event>) {
    log == [] ||
    var front := log[..|log| - 1];
    Possible(m, limit, front) && Can(Replay(m, front), Unresolved(front), limit, log[|log| - 1])
  }

  lemma NumberSnoc(log: seq<Event>, e: Event, f: Event)
    ensures Number(log + [e], f) == Number(log, f) + if e == f then 1 else 0
  {
    assert (log + [e])[..|log|] == log;
  }

  lemma PossibleSnoc(m: Media, limit: Option<nat>, log: seq<Event>, e: Event)
    requires Possible(m, limit, log) && Can(Replay(m, log), Unresolved(log), limit, e)
    ensures Possible(m, limit, log + [e]) && Replay(m, log + [e]) == After(Replay(m, log), e)
    ensures Unresolved(log + [e]) == Unresolved(log) + if e == Claim then 1 else if e.Moderate? then 0 else -1
  {
    assert (log + [e])[..|log|] == log;
    NumberSnoc(log, e, Claim);
    NumberSnoc(log, e, Finish);
    NumberSnoc(log, e, Release);
    NumberSnoc(log, e, Lose);
  }

  /**
   * Over every run from an unused row, the counter is the number of finished,
   * crashed and running deliveries, and it never exceeds the limit.
   */
  lemma {:induction false} SlotsAccountedFor(m: Media, limit: Option<nat>, log: seq<Event>)
    requires m.count == 0 && Possible(m, limit, log)
    ensures Replay(m, log).count == Number(log, Finish) + Number(log, Lose) + Unresolved(log)
    ensures Unresolved(log) >= 0
    ensures limit.Some? ==> Replay(m, log).count <= limit.value
  {
    if log != [] {
      var front, e := log[..|log| - 1], log[|log| - 1];
      assert log == front + [e];
      SlotsAccountedFor(m, limit, front);
      PossibleSnoc(m, limit, front, e);
      NumberSnoc(front, e, Finish);
      NumberSnoc(front, e, Lose);
    }
  }

  /** The guard of the release never suppresses it. */
  lemma ReleaseAlwaysDecrements(m: Media, limit: Option<nat>, log: seq<Event>)
    requires m.count == 0 && Possible(m, limit, log) && Can(Replay(m, log), Unresolved(log), limit, Release)
    ensures Replay(m, log + [Release]).count == Replay(m, log).count - 1
  {
    SlotsAccountedFor(m, limit, log);
    PossibleSnoc(m, limit, log, Release);
  }

  /**
   * Never more deliveries than the limit; and when nothing is running and
   * nothing crashed, a live file refuses a claim only if the whole limit was delivered.
   */
  lemma NeverOversoldNorUndersold(m: Media, limit: nat, log: seq<Event>)
    requires m.count == 0 && Possible(m, Some(limit), log)
    ensures Number(log, Finish) <= limit
    ensures Number(log, Lose) == 0 && Unresolved(log) == 0 && Replay(m, log).approved && Replay(m, log).active ==>
              (Claimable(Replay(m, log), Some(limit)) <==> Number(log, Finish) < limit)
  {
    SlotsAccountedFor(m, Some(limit), log);
  }

  // ---- the delivery ----------------------------------------------------------------

  datatype MediaStatus = Ok | NotFound | Inactive | LimitReached

  datatype Delivery =
    | Delivered(sent: seq<int>)
    | Failed | Blocked | Unavailable(status: MediaStatus) | Gated | PasswordRequired
    | Paywall(gate: PaywallService.Gate) | Crashed

  /** What the outside world answers: the caller, the channels, the password, the paywall and the sends. */
  datatype World = World(
    blocked: bool, admin: bool, unjoined: nat, needsPassword: bool, verified: bool,
    gate: PaywallService.Gate, sends: seq<Option<int>>)

  datatype Turn = Turn(others: seq<Event>, crash: bool)

  function StatusOf(m: Media, limit: Option<nat>): MediaStatus {
    if !m.approved then NotFound
    else if !m.active then Inactive
    else if !HasRoom(m, limit) then LimitReached
    else Ok
  }

  /** The message ids of the sends that went through, in file order. */
  function SentIds(sends: seq<Option<int>>): seq<int> {
    if sends == [] then []
    else
      var front := SentIds(sends[..|sends| - 1]);
      match sends[|sends| - 1]
      case None => front
      case Some(id) => front + [id]
  }

  /** The first closed gate, in the order in which they are tried; None when a claim may be tried. */
  function ClosedGate(found: bool, m: Media, limit: Option<nat>, w: World): Option<Delivery> {
    if w.blocked && !w.admin then Some(Blocked)
    else if !found then Some(Unavailable(NotFound))
    else if StatusOf(m, limit) != Ok then Some(Unavailable(StatusOf(m, limit)))
    else if w.unjoined > 0 then Some(Gated)
    else if w.needsPassword && !w.verified then Some(PasswordRequired)
    else if w.gate != PaywallService.Open then Some(Paywall(w.gate))
    else None
  }

  function Uninterrupted(found: bool, m: Media, limit: Option<nat>, w: World): Delivery {
    match ClosedGate(found, m, limit, w)
    case Some(d) => d
    case None => if SentIds(w.sends) == [] then Failed else Delivered(SentIds(w.sends))
  }

  /** Which answer an undisturbed delivery gets: of the first closed gate, or of the sends behind them all. */
  predicate AnswersInOrder(found: bool, m: Media, limit: Option<nat>, w: World, r: Delivery) {
    var known := !w.blocked || w.admin;
    var live := known && found && m.approved && m.active && (limit.Some? ==> m.count < limit.value);
    var inside := live && w.unjoined == 0 && (w.needsPassword ==> w.verified);
    && (r == Blocked <==> !known)
    && (r == Unavailable(NotFound) <==> known && !(found && m.approved))
    && (r == Unavailable(Inactive) <==> known && found && m.approved && !m.active)
    && (r == Unavailable(LimitReached) <==> known && found && m.approved && m.active && !live)
    && (r == Gated <==> live && w.unjoined > 0)
    && (r == PasswordRequired <==> live && w.unjoined == 0 && w.needsPassword && !w.verified)
    && (r.Paywall? <==> inside && w.gate != PaywallService.Open) && (r.Paywall? ==> r.gate == w.gate)
    && (r.Delivered? || r.Failed? <==> inside && w.gate == PaywallService.Open)
    && (r.Failed? ==> forall k :: 0 <= k < |w.sends| ==> w.sends[k] == None)
  }

  /** The ids stand in file order: each send that went through comes after those of the files before it. */
  lemma {:induction false} SentInOrder(sends: seq<Option<int>>, k: nat)
    requires k < |sends|
    ensures var n := |SentIds(sends[..k])|;
            && |SentIds(sends[..k + 1])| == n + (if sends[k].Some? then 1 else 0) <= |SentIds(sends)|
            && (sends[k].Some? ==> SentIds(sends)[n] == sends[k].value)
  {
    var front := sends[..|sends| - 1];
    assert sends[..k + 1][..k] == sends[..k];
    if k == |sends| - 1 {
      assert sends[..k + 1] == sends;
    } else {
      SentInOrder(front, k);
      assert front[..k] == sends[..k] && front[..k + 1] == sends[..k + 1];
    }
  }

  lemma {:induction false} NothingSent(sends: seq<Option<int>>)
    ensures SentIds(sends) == [] <==> forall k :: 0 <= k < |sends| ==> sends[k] == None
  {
    if sends != [] {
      NothingSent(sends[..|sends| - 1]);
      assert forall k :: 0 <= k < |sends| - 1 ==> sends[..|sends| - 1][k] == sends[k];
    }
  }

  lemma GatesInOrder(found: bool, m: Media, limit: Option<nat>, w: World)
    ensures AnswersInOrder(found, m, limit, w, Uninterrupted(found, m, limit, w))
  {
    hide SentIds;
    NothingSent(w.sends);
  }

  class MediaService {
    const code: string
    const limit: Option<nat>
    const start: Media
    var media: Media
    var turns: seq<Turn>
    ghost var log: seq<Event>
    ghost var mine: seq<Event>

    ghost predicate Valid()
      reads this
    {
      start.count == 0 && Possible(start, limit, log) && media == Replay(start, log)
    }

    constructor (code: string, limit: Option<nat>, media: Media, turns: seq<Turn>)
      requires media.count == 0
      ensures Valid() && this.media == media && this.turns == turns && mine == [] && log == []
    {
      this.code, this.limit, this.start := code, limit, media;
      this.media, this.turns := media, turns;
      log, mine := [], [];
    }

    method Commit(e: Event)
      requires Valid() && Can(media, Unresolved(log), limit, e)
      modifies this`media, this`log
      ensures Valid() && media == After(old(media), e) && log == old(log) + [e]
      ensures Unresolved(log) == Unresolved(old(log)) + if e == Claim then 1 else if e.Moderate? then 0 else -1
    {
      PossibleSnoc(start, limit, log, e);
      media := After(media, e);
      log := log + [e];
    }

    /** One await: others commit what they can, but cannot resolve the `held` claims of ours. */
    method Pause(held: nat) returns (ok: bool)
      requires Valid() && Unresolved(log) >= held
      modifies this`media, this`log, this`turns
      ensures Valid() && Unresolved(log) >= held
      ensures old(turns) == [] ==> ok && media == old(media) && turns == []
    {
      if turns == [] {
        return true;
      }
      var turn := turns[0];
      turns := turns[1..];
      var open := 0;
      var i := 0;
      while i < |turn.others|
        invariant Valid() && Unresolved(log) >= held + open && open >= 0
      {
        var e := turn.others[i];
        if e == Claim && Claimable(media, limit) {
          Commit(e);
          open := open + 1;
        } else if e.Moderate? {
          Commit(e);
        } else if e != Claim && open > 0 {
          Commit(e);
          open := open - 1;
        }
        i := i + 1;
      }
      ok := !turn.crash;
    }

    /**
     * What a visitor may learn without claiming: unapproved looks like unknown, Ok
     * means that a claim would get a slot, and the limit is reached only when
     * finished, running and crashed deliveries hold every slot of it.
     */
    method CheckStatus(c: string) returns (status: MediaStatus)
      requires Valid()
      ensures status == NotFound <==> c != code || !media.approved
      ensures status == Inactive <==> c == code && media.approved && !media.active
      ensures status == Ok <==> c == code && Claimable(media, limit)
      ensures status == LimitReached ==>
                limit.Some? && Number(log, Finish) + Number(log, Lose) + Unresolved(log) == limit.value
    {
      SlotsAccountedFor(start, limit, log);
      if c != code {
        return NotFound;
      }
      if !media.approved {
        return NotFound;
      }
      if !media.active {
        return Inactive;
      }
      if limit.Some? && media.count >= limit.value {
        return LimitReached;
      }
      status := Ok;
    }

    /** The claim is one conditional UPDATE: it takes a slot exactly when the row still allows it. */
    method TryClaimDownload(c: string) returns (status: MediaStatus, ok: bool)
      requires Valid()
      modifies this
      ensures Valid()
      ensures c != code ==> status == NotFound
      ensures status == Ok ==> mine == old(mine) + [Claim] && Unresolved(log) > 0
      ensures status != Ok ==> mine == old(mine)
      ensures !ok ==> status != Ok
      ensures old(turns) == [] ==>
                && ok && turns == [] && status == (if c != code then NotFound else StatusOf(old(media), limit))
                && media == if status == Ok then After(old(media), Claim) else old(media)
    {
      SlotsAccountedFor(start, limit, log);
      ok := true;
      if c != code {
        return NotFound, true;
      }
      if !media.approved {
        return NotFound, true;
      }
      if !media.active {
        return Inactive, true;
      }
      ok := Pause(0);
      if !ok {
        return Inactive, false;
      }
      if !Claimable(media, limit) {
        return LimitReached, true;
      }
      SlotsAccountedFor(start, limit, log);
      Commit(Claim);
      mine := mine + [Claim];
      status := Ok;
    }

    method ReleaseDownload()
      requires Valid() && Unresolved(log) > 0
      modifies this`media, this`log, this`mine
      ensures Valid() && mine == old(mine) + [Release] && media == old(media).(count := old(media).count - 1)
    {
      SlotsAccountedFor(start, limit, log);
      Commit(Release);
      mine := mine + [Release];
    }

    /** Everything before the claim; it takes no slot. */
    method TryGates(c: string, w: World) returns (closed: Option<Delivery>)
      requires Valid()
      modifies this
      ensures Valid() && mine == old(mine)
      ensures closed.Some? ==> !closed.value.Delivered? && !closed.value.Failed?
      ensures closed == None ==>
                c == code && !(w.blocked && !w.admin) && w.unjoined == 0 && (w.needsPassword ==> w.verified)
                && w.gate == PaywallService.Open
      ensures old(turns) == [] ==>
                media == old(media) && turns == [] && (closed == None ==> StatusOf(media, limit) == Ok)
      ensures old(turns) == [] ==> closed == ClosedGate(c == code, media, limit, w)
    {
      SlotsAccountedFor(start, limit, log);
      if w.blocked {
        if !w.admin {
          return Some(Blocked);
        }
      }
      var ok := Pause(0);
      if !ok {
        return Some(Crashed);
      }
      var status := CheckStatus(c);
      if status != Ok {
        return Some(Unavailable(status));
      }
      SlotsAccountedFor(start, limit, log);
      ok := Pause(0);
      if !ok {
        return Some(Crashed);
      }
      if w.unjoined > 0 {
        return Some(Gated);
      }
      if w.needsPassword && !w.verified {
        return Some(PasswordRequired);
      }
      if w.gate != PaywallService.Open {
        return Some(Paywall(w.gate));
      }
      closed := None;
    }

    /**
     * One delivery. It claims only behind all the gates; it then keeps the slot
     * if and only if something was sent, and otherwise gives it back; only a
     * crash leaves a slot lost.
     */
    method DeliverByCode(c: string, w: World) returns (r: Delivery)
      requires Valid()
      modifies this
      ensures Valid()
      ensures r.Delivered? ==> mine == old(mine) + [Claim, Finish] && r.sent == SentIds(w.sends) && r.sent != []
      ensures r.Crashed? ==> mine == old(mine) || mine == old(mine) + [Claim, Lose]
      ensures r.Failed? ==> mine == old(mine) + [Claim, Release]
      ensures !r.Delivered? && !r.Crashed? && !r.Failed? ==> mine == old(mine)
      ensures mine != old(mine) ==>
                c == code && !(w.blocked && !w.admin) && w.unjoined == 0 && (w.needsPassword ==> w.verified)
                && w.gate == PaywallService.Open
      ensures old(turns) == [] ==>
                && r == Uninterrupted(c == code, old(media), limit, w)
                && AnswersInOrder(c == code, old(media), limit, w, r)
                && media == if r.Delivered? then old(media).(count := old(media).count + 1) else old(media)
    {
      hide SentIds, AnswersInOrder;
      GatesInOrder(c == code, media, limit, w);
      var closed := TryGates(c, w);
      if closed.Some? {
        return closed.value;
      }
      var claim, alive := TryClaimDownload(c);
      if !alive {
        return Crashed;
      }
      if claim != Ok {
        return Unavailable(claim);
      }
      r := SendFiles(w.sends);
    }

    /** Behind the claim: send what can be sent, then keep the slot or give it back. */
    method SendFiles(sends: seq<Option<int>>) returns (r: Delivery)
      requires Valid() && Unresolved(log) > 0
      modifies this
      ensures Valid()
      ensures r.Crashed? || r.Failed? || r.Delivered?
      ensures r.Delivered? ==> mine == old(mine) + [Finish] && r.sent == SentIds(sends) && r.sent != []
      ensures r.Failed? ==> mine == old(mine) + [Release] && SentIds(sends) == []
      ensures r.Crashed? ==> mine == old(mine) + [Lose]
      ensures old(turns) == [] ==>
                !r.Crashed? && media == if r.Failed? then old(media).(count := old(media).count - 1) else old(media)
    {
      var sentIds: seq<int> := [];
      var index := 0;
      while index < |sends|
        invariant 0 <= index <= |sends| && Valid() && Unresolved(log) > 0
        invariant sentIds == SentIds(sends[..index]) && mine == old(mine)
        invariant old(turns) == [] ==> turns == [] && media == old(media)
      {
        var ok := Pause(1);
        if !ok {
          Commit(Lose);
          mine := mine + [Lose];
          return Crashed;
        }
        if sends[index].Some? {
          sentIds := sentIds + [sends[index].value];
        }
        assert sends[..index + 1][..index] == sends[..index];
        index := index + 1;
      }
      assert sends[..|sends|] == sends;
      var alive := Pause(1);
      if !alive {
        Commit(Lose);
        mine := mine + [Lose];
        return Crashed;
      }
      if sentIds == [] {
        ReleaseDownload();
        return Failed;
      }
      Commit(Finish);
      mine := mine + [Finish];
      r := Delivered(sentIds);
    }
  }
}
