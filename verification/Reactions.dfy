/**
 * app/services/reaction_service.py: like, dislike and favorite rows, the
 * counters kept beside them, and toggles that run against each other.
 */
module Reactions {
  import opened Wrappers

  datatype Kind = Like | Dislike | Favorite

  datatype Row = Row(media: int, user: int, kind: Kind)

  /** The committed state: the media, the reaction rows, one counter for each media and kind. */
  datatype Db = Db(media: set<int>, rows: set<Row>, counts: map<(int, Kind), int>)

  function Opposite(k: Kind): Option<Kind> {
    match k
    case Like => Some(Dislike)
    case Dislike => Some(Like)
    case Favorite => None
  }

  function Of(rows: set<Row>, m: int, k: Kind): set<Row> {
    set r | r in rows && r.media == m && r.kind == k
  }

  /** Every counter is the number of its rows. */
  ghost predicate Sound(db: Db) {
    && (forall r :: r in db.rows ==> r.media in db.media)
    && (forall m, k :: m in db.media ==> (m, k) in db.counts && db.counts[(m, k)] == |Of(db.rows, m, k)|)
  }

  // ---- committed toggles -------------------------------------------------------

  /**
   * What one committed toggle did: it took a row away, or it set one, and then
   * `cleared` tells whether its DELETE found the opposite row.
   */
  datatype Act = Unset(row: Row) | Set(row: Row, cleared: bool)

  /** The rows the transaction removes. */
  function Removed(a: Act): set<Row> {
    match a
    case Unset(r) => {r}
    case Set(r, cleared) => if cleared && Opposite(r.kind).Some? then {r.(kind := Opposite(r.kind).value)} else {}
  }

  /** Row locks and the unique constraint let it commit only like this. */
  predicate CanCommit(db: Db, a: Act) {
    && a.row.media in db.media
    && Removed(a) <= db.rows
    && (a.Set? ==> a.row !in db.rows && (a.cleared ==> Opposite(a.row.kind).Some?))
  }

  /** The guarded decrement and the increment of one counter. */
  function Decrement(counts: map<(int, Kind), int>, key: (int, Kind)): map<(int, Kind), int> {
    if key in counts && counts[key] > 0 then counts[key := counts[key] - 1] else counts
  }

  function Increment(counts: map<(int, Kind), int>, key: (int, Kind)): map<(int, Kind), int> {
    if key in counts then counts[key := counts[key] + 1] else counts
  }

  function Commit(db: Db, a: Act): Db {
    match a
    case Unset(r) => db.(rows := db.rows - {r}, counts := Decrement(db.counts, (r.media, r.kind)))
    case Set(r, cleared) =>
      var counts := if cleared && Opposite(r.kind).Some? then Decrement(db.counts, (r.media, Opposite(r.kind).value))
          else db.counts;
      db.(rows := db.rows - Removed(a) + {r}, counts := Increment(counts, (r.media, r.kind)))
  }

  lemma OfMinus(rows: set<Row>, r: Row, m: int, k: Kind)
    requires r in rows
    ensures |Of(rows - {r}, m, k)| == |Of(rows, m, k)| - if r.media == m && r.kind == k then 1 else 0
  {
    if r.media == m && r.kind == k {
      assert Of(rows - {r}, m, k) == Of(rows, m, k) - {r};
    } else {
      assert Of(rows - {r}, m, k) == Of(rows, m, k);
    }
  }

  lemma OfPlus(rows: set<Row>, r: Row, m: int, k: Kind)
    requires r !in rows
    ensures |Of(rows + {r}, m, k)| == |Of(rows, m, k)| + if r.media == m && r.kind == k then 1 else 0
  {
    OfMinus(rows + {r}, r, m, k);
    assert rows + {r} - {r} == rows;
  }

  /** Every commit keeps the counters exact, and its guarded decrements are never suppressed. */
  lemma CommitKeepsSound(db: Db, a: Act)
    requires Sound(db) && CanCommit(db, a)
    ensures Sound(Commit(db, a))
    ensures forall r :: r in Removed(a) ==> (r.media, r.kind) in db.counts && db.counts[(r.media, r.kind)] > 0
  {
    var next := Commit(db, a);
    var mid := db.rows - Removed(a);
    forall r | r in Removed(a) ensures db.counts[(r.media, r.kind)] > 0 {
      assert r in Of(db.rows, r.media, r.kind);
    }
    forall m, k | m in next.media
      ensures (m, k) in next.counts && next.counts[(m, k)] == |Of(next.rows, m, k)|
    {
      if Removed(a) != {} {
        var gone := if a.Unset? then a.row else a.row.(kind := Opposite(a.row.kind).value);
        assert Removed(a) == {gone};
        OfMinus(db.rows, gone, m, k);
      } else {
        assert mid == db.rows;
      }
      if a.Set? {
        OfPlus(mid, a.row, m, k);
      }
    }
  }

  // ---- all runs ------------------------------------------------------------------

  function Replay(db: Db, acts: seq<Act>): Db {
    if acts == [] then db else Commit(Replay(db, acts[..|acts| - 1]), acts[|acts| - 1])
  }

  ghost predicate Possible(db: Db, acts: seq<Act>) {
    acts == [] ||
    (Possible(db, acts[..|acts| - 1]) && CanCommit(Replay(db, acts[..|acts| - 1]), acts[|acts| - 1]))
  }

  lemma {:induction false} CountersCountRows(db: Db, acts: seq<Act>)
    requires Sound(db) && Possible(db, acts)
    ensures Sound(Replay(db, acts))
  {
    if acts != [] {
      CountersCountRows(db, acts[..|acts| - 1]);
      CommitKeepsSound(Replay(db, acts[..|acts| - 1]), acts[|acts| - 1]);
    }
  }

  lemma ReplaySnoc(db: Db, acts: seq<Act>, a: Act)
    requires Possible(db, acts) && CanCommit(Replay(db, acts), a)
    ensures Possible(db, acts + [a]) && Replay(db, acts + [a]) == Commit(Replay(db, acts), a)
  {
    assert (acts + [a])[..|acts|] == acts;
  }

  // ---- exclusion of like and dislike ----------------------------------------------

  predicate Both(db: Db, m: int, u: int) {
    Row(m, u, Like) in db.rows && Row(m, u, Dislike) in db.rows
  }

  /** The toggle is of this user on this media. */
  predicate About(a: Act, m: int, u: int) {
    a.row.media == m && a.row.user == u
  }

  ghost predicate SameRows(d0: Db, d1: Db, m: int, u: int) {
    forall k :: Row(m, u, k) in d0.rows <==> Row(m, u, k) in d1.rows
  }

  /** A toggle of anyone else, or on another media, leaves the user's rows on this one alone. */
  lemma OthersLeaveRows(db: Db, a: Act, m: int, u: int)
    requires !About(a, m, u)
    ensures SameRows(db, Commit(db, a), m, u)
  {
  }

  /** It sets a row without having cleared the opposite one, which stands when it commits. */
  predicate SlipsIn(db: Db, a: Act, m: int, u: int) {
    && About(a, m, u) && a.Set? && !a.cleared
    && Opposite(a.row.kind).Some? && a.row.(kind := Opposite(a.row.kind).value) in db.rows
  }

  /**
   * A toggle makes like and dislike coexist exactly when it sets one of them, its
   * DELETE found no opposite row, and one was committed before it committed.
   */
  lemma CoexistIffOppositeSlippedIn(db: Db, a: Act, m: int, u: int)
    requires CanCommit(db, a) && !Both(db, m, u)
    ensures Both(Commit(db, a), m, u) <==> SlipsIn(db, a, m, u)
  {
    if About(a, m, u) {
      assert a.row == Row(m, u, a.row.kind);
    } else {
      OthersLeaveRows(db, a, m, u);
    }
  }

  ghost predicate BothAtSomeTime(db: Db, acts: seq<Act>, m: int, u: int) {
    exists k :: 0 <= k <= |acts| && Both(Replay(db, acts[..k]), m, u)
  }

  ghost predicate SomeSlipsIn(db: Db, acts: seq<Act>, m: int, u: int) {
    exists i :: 0 <= i < |acts| && SlipsIn(Replay(db, acts[..i]), acts[i], m, u)
  }

  lemma BothSnoc(db: Db, front: seq<Act>, a: Act, m: int, u: int)
    ensures BothAtSomeTime(db, front + [a], m, u) <==>
            BothAtSomeTime(db, front, m, u) || Both(Replay(db, front + [a]), m, u)
    ensures !BothAtSomeTime(db, front, m, u) ==> !Both(Replay(db, front), m, u)
  {
    hide Both, Replay;
    var acts := front + [a];
    assert forall k :: 0 <= k <= |front| ==> acts[..k] == front[..k];
    assert acts[..|acts|] == acts && front[..|front|] == front;
  }

  lemma SlipsInSnoc(db: Db, front: seq<Act>, a: Act, m: int, u: int)
    ensures SomeSlipsIn(db, front + [a], m, u) <==> SomeSlipsIn(db, front, m, u) || SlipsIn(Replay(db, front), a, m, u)
  {
    hide SlipsIn, Replay;
    var acts := front + [a];
    assert forall k :: 0 <= k <= |front| ==> acts[..k] == front[..k];
    assert front[..|front|] == front && acts[|front|] == a;
    if i :| 0 <= i < |front| && SlipsIn(Replay(db, front[..i]), front[i], m, u) {
      assert SlipsIn(Replay(db, acts[..i]), acts[i], m, u);
    }
    assert SlipsIn(Replay(db, acts[..|front|]), acts[|front|], m, u) <==> SlipsIn(Replay(db, front), a, m, u);
  }

  /** Over every run: like and dislike coexist in some state exactly when some toggle of the run slipped in. */
  lemma {:induction false} CoexistInRunIffSlippedIn(db: Db, acts: seq<Act>, m: int, u: int)
    requires Possible(db, acts) && !Both(db, m, u)
    ensures BothAtSomeTime(db, acts, m, u) <==> SomeSlipsIn(db, acts, m, u)
  {
    if acts == [] {
      assert acts[..0] == [];
    } else {
      hide Both, SlipsIn, Replay, CanCommit, BothAtSomeTime, SomeSlipsIn;
      var front, a := acts[..|acts| - 1], acts[|acts| - 1];
      assert acts == front + [a];
      CoexistInRunIffSlippedIn(db, front, m, u);
      BothSnoc(db, front, a, m, u);
      SlipsInSnoc(db, front, a, m, u);
      if !BothAtSomeTime(db, front, m, u) {
        LastToggleDecides(db, front, a, m, u);
      }
    }
  }

  lemma LastToggleDecides(db: Db, front: seq<Act>, a: Act, m: int, u: int)
    requires Possible(db, front) && CanCommit(Replay(db, front), a) && !Both(Replay(db, front), m, u)
    ensures Both(Replay(db, front + [a]), m, u) <==> SlipsIn(Replay(db, front), a, m, u)
  {
    CoexistIffOppositeSlippedIn(Replay(db, front), a, m, u);
    ReplaySnoc(db, front, a);
  }

  /** What a toggle that nothing interrupts commits. */
  function Alone(db: Db, r: Row): Act {
    if r in db.rows then Unset(r)
    else Set(r, Opposite(r.kind).Some? && r.(kind := Opposite(r.kind).value) in db.rows)
  }

  function Toggled(db: Db, r: Row): Db {
    Commit(db, Alone(db, r))
  }

  /** Serial toggles of a user keep like and dislike apart. */
  lemma SerialExclusive(db: Db, r: Row, m: int, u: int)
    requires r.media in db.media && !Both(db, m, u)
    ensures CanCommit(db, Alone(db, r))
    ensures !Both(Toggled(db, r), m, u)
    ensures r in Toggled(db, r).rows <==> r !in db.rows
  {
    CoexistIffOppositeSlippedIn(db, Alone(db, r), m, u);
  }

  /** Each toggle of this user on this media commits on the state it read; the others may do anything. */
  ghost predicate SerialFor(db: Db, acts: seq<Act>, m: int, u: int) {
    forall i :: 0 <= i < |acts| && About(acts[i], m, u) ==> acts[i] == Alone(Replay(db, acts[..i]), acts[i].row)
  }

  /** While the toggles of one user on one media are serial, like and dislike never coexist, whatever others do. */
  lemma {:induction false} SerialRunsExclude(db: Db, acts: seq<Act>, m: int, u: int)
    requires Possible(db, acts) && SerialFor(db, acts, m, u) && !Both(db, m, u)
    ensures forall k :: 0 <= k <= |acts| ==> !Both(Replay(db, acts[..k]), m, u)
  {
    CoexistInRunIffSlippedIn(db, acts, m, u);
    forall i | 0 <= i < |acts| ensures !SlipsIn(Replay(db, acts[..i]), acts[i], m, u) {
    }
  }

  lemma {:induction false} OthersRunLeavesRows(db: Db, acts: seq<Act>, m: int, u: int)
    requires Possible(db, acts) && forall i :: 0 <= i < |acts| ==> !About(acts[i], m, u)
    ensures SameRows(db, Replay(db, acts), m, u) && Replay(db, acts).media == db.media
  {
    if acts != [] {
      OthersRunLeavesRows(db, acts[..|acts| - 1], m, u);
      OthersLeaveRows(Replay(db, acts[..|acts| - 1]), acts[|acts| - 1], m, u);
    }
  }

  /**
   * Toggling twice, with any toggles of other users or media between, brings the
   * kind back always, and all the user's rows on the media if and only if the first toggle
   * cleared no opposite.
   */
  lemma TwiceRestoresAmongOthers(db: Db, r: Row, between: seq<Act>)
    requires r.media in db.media && !Both(db, r.media, r.user)
    requires Possible(Toggled(db, r), between) && forall i :: 0 <= i < |between| ==> !About(between[i], r.media, r.user)
    ensures var end := Toggled(Replay(Toggled(db, r), between), r);
            && (r in end.rows <==> r in db.rows)
            && (SameRows(db, end, r.media, r.user) <==> !(Alone(db, r).Set? && Alone(db, r).cleared))
  {
    var once := Toggled(db, r);
    var mid := Replay(once, between);
    var m, u := r.media, r.user;
    assert r == Row(m, u, r.kind);
    SerialExclusive(db, r, m, u);
    OthersRunLeavesRows(once, between, m, u);
    assert Row(m, u, r.kind) in once.rows <==> Row(m, u, r.kind) in mid.rows;
    if Opposite(r.kind).Some? {
      var o := Row(m, u, Opposite(r.kind).value);
      assert o == r.(kind := Opposite(r.kind).value);
      assert o in once.rows <==> o in mid.rows;
      assert Alone(db, r).Set? ==> o !in once.rows;
    }
  }

  /**
   * With nothing between, the whole state comes back, counters included, under
   * the same condition.
   */
  lemma TwiceRestores(db: Db, r: Row)
    requires Sound(db) && r.media in db.media && !Both(db, r.media, r.user)
    ensures r in Toggled(Toggled(db, r), r).rows <==> r in db.rows
    ensures Toggled(Toggled(db, r), r) == db <==> !(Alone(db, r).Set? && Alone(db, r).cleared)
  {
    SerialExclusive(db, r, r.media, r.user);
    CommitKeepsSound(db, Alone(db, r));
    var key := (r.media, r.kind);
    var once := Toggled(db, r);
    var twice := Toggled(once, r);
    assert r == Row(r.media, r.user, r.kind);
    if r in db.rows {
      assert r in Of(db.rows, r.media, r.kind);
      assert twice.rows == db.rows;
      assert twice.counts == db.counts;
    } else if Alone(db, r).cleared {
      assert r.(kind := Opposite(r.kind).value) !in twice.rows;
    } else {
      assert twice.rows == db.rows;
      assert twice.counts == db.counts;
    }
  }

  /** Two first toggles at once: neither sees the other's row, both commit, and both rows stay. */
  lemma LikeAndDislikeCanCoexist()
    ensures var db := Db({1}, {}, map[(1, Like) := 0, (1, Dislike) := 0, (1, Favorite) := 0]);
            var acts := [Alone(db, Row(1, 7, Like)), Alone(db, Row(1, 7, Dislike))];
            Sound(db) && Possible(db, acts) && Both(Replay(db, acts), 1, 7)
  {
    var db := Db({1}, {}, map[(1, Like) := 0, (1, Dislike) := 0, (1, Favorite) := 0]);
    forall m, k | m in db.media ensures (m, k) in db.counts && db.counts[(m, k)] == |Of(db.rows, m, k)| {
      assert Of(db.rows, m, k) == {};
      match k {
        case Like =>
        case Dislike =>
        case Favorite =>
      }
    }
    var a, b := Alone(db, Row(1, 7, Like)), Alone(db, Row(1, 7, Dislike));
    assert Possible(db, []) && Replay(db, []) == db;
    ReplaySnoc(db, [], a);
    assert [] + [a] == [a];
    ReplaySnoc(db, [a], b);
    assert [a] + [b] == [a, b];
  }

  // ---- the service ------------------------------------------------------------------

  /** One turn of the others: the toggles they commit, and whether our statement then fails. */
  datatype Turn = Turn(others: seq<Act>, crash: bool)

  /** Nobody else toggles for this user on this media. */
  ghost predicate NoneAbout(turns: seq<Turn>, m: int, u: int) {
    forall t, a :: t in turns && a in t.others ==> !About(a, m, u)
  }

  datatype Outcome = IsSet | IsCleared | NoMedia | Crashed

  lemma SameRowsTrans(d0: Db, d1: Db, d2: Db, m: int, u: int)
    requires SameRows(d0, d1, m, u) && SameRows(d1, d2, m, u)
    ensures SameRows(d0, d2, m, u)
  {
  }

  /** The call did nothing, or committed exactly what a serial toggle of `r` does to the user's rows. */
  ghost predicate SerialResult(d0: Db, mine0: seq<Act>, d1: Db, mine1: seq<Act>, r: Row, outcome: Outcome) {
    if outcome == IsSet || outcome == IsCleared then
      && mine1 == mine0 + [Alone(d0, r)] && (outcome == IsSet <==> r !in d0.rows)
      && SameRows(Toggled(d0, r), d1, r.media, r.user)
    else mine1 == mine0 && SameRows(d0, d1, r.media, r.user)
  }

  /** It depends on the user's rows only. */
  lemma SerialResultFrom(d: Db, d0: Db, mine0: seq<Act>, d1: Db, mine1: seq<Act>, r: Row, outcome: Outcome)
    requires SameRows(d, d0, r.media, r.user) && SerialResult(d0, mine0, d1, mine1, r, outcome)
    ensures SerialResult(d, mine0, d1, mine1, r, outcome)
  {
    var m, u := r.media, r.user;
    assert r == Row(m, u, r.kind);
    assert Row(m, u, r.kind) in d.rows <==> Row(m, u, r.kind) in d0.rows;
    if Opposite(r.kind).Some? {
      var o := Row(m, u, Opposite(r.kind).value);
      assert o == r.(kind := Opposite(r.kind).value);
      assert o in d.rows <==> o in d0.rows;
    }
    forall k ensures Row(m, u, k) in Toggled(d, r).rows <==> Row(m, u, k) in Toggled(d0, r).rows {
      assert Row(m, u, k) in d.rows <==> Row(m, u, k) in d0.rows;
    }
  }

  lemma SameAlone(d0: Db, d1: Db, r: Row)
    requires SameRows(d0, d1, r.media, r.user)
    ensures Alone(d0, r) == Alone(d1, r)
  {
    assert r == Row(r.media, r.user, r.kind);
    assert Row(r.media, r.user, r.kind) in d0.rows <==> Row(r.media, r.user, r.kind) in d1.rows;
    if Opposite(r.kind).Some? {
      var o := Row(r.media, r.user, Opposite(r.kind).value);
      assert o == r.(kind := Opposite(r.kind).value);
      assert o in d0.rows <==> o in d1.rows;
    }
  }

  lemma NothingDone(d0: Db, d1: Db, mine: seq<Act>, r: Row)
    requires SameRows(d0, d1, r.media, r.user)
    ensures SerialResult(d0, mine, d1, mine, r, Crashed) && SerialResult(d0, mine, d1, mine, r, NoMedia)
    ensures Both(d0, r.media, r.user) <==> Both(d1, r.media, r.user)
  {
  }

  /** It keeps like and dislike apart. */
  lemma SerialResultExclusive(d0: Db, mine0: seq<Act>, d1: Db, mine1: seq<Act>, r: Row, outcome: Outcome)
    requires r.media in d0.media && SerialResult(d0, mine0, d1, mine1, r, outcome)
    ensures !Both(d0, r.media, r.user) ==> !Both(d1, r.media, r.user)
  {
    if !Both(d0, r.media, r.user) {
      SerialExclusive(d0, r, r.media, r.user);
    }
  }

  class ReactionService {
    const start: Db
    var db: Db
    var turns: seq<Turn>
    ghost var acts: seq<Act>
    ghost var mine: seq<Act>

    ghost predicate Valid()
      reads this
    {
      Sound(db) && Possible(start, acts) && db == Replay(start, acts)
    }

    constructor (db: Db, turns: seq<Turn>)
      requires Sound(db)
      ensures Valid() && this.db == db && this.turns == turns && mine == []
    {
      this.start := db;
      this.db := db;
      this.turns := turns;
      this.acts := [];
      this.mine := [];
    }

    method CommitAct(a: Act)
      requires Valid() && CanCommit(db, a)
      modifies this`db, this`acts
      ensures Valid() && db == Commit(old(db), a)
    {
      CommitKeepsSound(db, a);
      ReplaySnoc(start, acts, a);
      db := Commit(db, a);
      acts := acts + [a];
    }

    /**
     * One await. Others commit toggles, except that nobody removes a row our
     * DELETE has locked, and nobody who needs a media row we hold can commit.
     */
    method Pause(held: set<Row>, locked: set<int>, ghost m: int, ghost u: int) returns (ok: bool)
      requires Valid() && held <= db.rows
      modifies this`db, this`acts, this`turns
      ensures Valid() && held <= db.rows && db.media == old(db.media)
      ensures forall r: Row :: r.media in locked ==> (r in db.rows <==> r in old(db.rows))
      ensures old(turns) == [] ==> ok && db == old(db) && turns == []
      ensures NoneAbout(old(turns), m, u) ==> NoneAbout(turns, m, u) && SameRows(old(db), db, m, u)
    {
      if turns == [] {
        return true;
      }
      var turn := turns[0];
      turns := turns[1..];
      assert forall t :: t in turns ==> t in old(turns);
      ghost var rest := turns;
      var i := 0;
      while i < |turn.others|
        invariant Valid() && held <= db.rows && db.media == old(db.media)
        invariant forall r: Row :: r.media in locked ==> (r in db.rows <==> r in old(db.rows))
        invariant NoneAbout(old(turns), m, u) ==> SameRows(old(db), db, m, u)
        invariant turns == rest
      {
        var a := turn.others[i];
        assert turn in old(turns) && a in turn.others;
        if !About(a, m, u) {
          OthersLeaveRows(db, a, m, u);
        }
        if CanCommit(db, a) && Removed(a) !! held && a.row.media !in locked {
          CommitAct(a);
        }
        i := i + 1;
      }
      ok := !turn.crash;
    }

    method Has(r: Row) returns (found: bool)
      ensures found <==> r in db.rows
    {
      found := r in db.rows;
    }

    /**
     * A toggle commits at most one act, and reports what is then committed. When
     * nobody else toggles for this user on this media, whatever others do, it
     * commits the serial act, flips its row, and keeps like and dislike apart; an
     * uninterrupted toggle commits exactly what the serial toggle does.
     */
    method Toggle(media: int, user: int, kind: Kind) returns (outcome: Outcome)
      requires Valid()
      modifies this
      ensures Valid()
      ensures mine == old(mine)
              || (exists cleared :: mine == old(mine) + [Set(Row(media, user, kind), cleared)] && outcome == IsSet)
              || (mine == old(mine) + [Unset(Row(media, user, kind))] && outcome == IsCleared)
      ensures outcome == IsSet ==> Row(media, user, kind) in db.rows
      ensures outcome == IsCleared ==> Row(media, user, kind) !in db.rows
      ensures outcome == NoMedia ==> mine == old(mine)
      ensures NoneAbout(old(turns), media, user) ==>
                && SerialResult(old(db), old(mine), db, mine, Row(media, user, kind), outcome)
                && (!Both(old(db), media, user) ==> !Both(db, media, user))
      ensures old(turns) == [] ==>
                if media !in old(db.media) then outcome == NoMedia && db == old(db)
                else
                  && db == Toggled(old(db), Row(media, user, kind))
                  && outcome == if Row(media, user, kind) in db.rows then IsSet else IsCleared
    {
      hide Sound, Possible, Replay, Both, SerialResult;
      var r := Row(media, user, kind);
      if media !in db.media {
        NothingDone(db, db, mine, r);
        return NoMedia;
      }
      var ok := Pause({}, {}, media, user);
      var has := Has(r);
      if ok {
        ok := Pause({}, {}, media, user);
      }
      if SameRows(old(db), db, media, user) {
        NothingDone(old(db), db, mine, r);
      }
      if !ok {
        return Crashed;
      }
      ghost var d1, mine1 := db, mine;
      if has {
        outcome := FinishUnset(r);
      } else {
        outcome := ClearAndSet(r);
      }
      if SameRows(old(db), d1, media, user) && SerialResult(d1, mine1, db, mine, r, outcome) {
        SerialResultFrom(old(db), d1, mine1, db, mine, r, outcome);
        SerialResultExclusive(old(db), mine1, db, mine, r, outcome);
      }
    }

    /** `_remove` of the opposite kind, then the kind itself. */
    method ClearAndSet(r: Row) returns (outcome: Outcome)
      requires Valid() && r.media in db.media
      modifies this
      ensures Valid()
      ensures mine == old(mine) || (exists cleared :: mine == old(mine) + [Set(r, cleared)] && outcome == IsSet)
      ensures outcome == IsSet ==> r in db.rows
      ensures outcome == IsSet || outcome == Crashed
      ensures NoneAbout(old(turns), r.media, r.user) && r !in old(db).rows ==>
                SerialResult(old(db), old(mine), db, mine, r, outcome)
      ensures old(turns) == [] && r !in old(db).rows ==> outcome == IsSet && db == Toggled(old(db), r)
    {
      hide Sound, Possible, Replay;
      var cleared := false;
      var held: set<Row> := {};
      var locked: set<int> := {};
      if Opposite(r.kind).Some? {
        var other := r.(kind := Opposite(r.kind).value);
        cleared := other in db.rows;
        if cleared {
          held := {other};
          var ok := Pause(held, {}, r.media, r.user);
          if !ok {
            return Crashed;
          }
          locked := {r.media};
        }
      }
      ghost var d1 := db;
      outcome := FinishSet(r, cleared, held, locked);
      if NoneAbout(old(turns), r.media, r.user) && r !in old(db).rows {
        SameAlone(old(db), d1, r);
        SerialResultFrom(old(db), d1, old(mine), db, mine, r, outcome);
      }
    }

    /** `_remove` of the kind itself, and the commit. */
    method FinishUnset(r: Row) returns (outcome: Outcome)
      requires Valid() && r.media in db.media
      modifies this
      ensures Valid()
      ensures mine == old(mine) || (mine == old(mine) + [Unset(r)] && outcome == IsCleared)
      ensures outcome == IsCleared ==> r !in db.rows
      ensures outcome == IsCleared || outcome == Crashed
      ensures NoneAbout(old(turns), r.media, r.user) && r in old(db).rows ==>
                SerialResult(old(db), old(mine), db, mine, r, outcome)
      ensures old(turns) == [] ==>
                outcome == IsCleared && db == if r in old(db.rows) then Commit(old(db), Unset(r)) else old(db)
    {
      if r !in db.rows {
        return IsCleared;
      }
      var ok := Pause({r}, {}, r.media, r.user);
      if !ok {
        return Crashed;
      }
      ok := Pause({r}, {r.media}, r.media, r.user);
      if !ok {
        return Crashed;
      }
      CommitAct(Unset(r));
      mine := mine + [Unset(r)];
      outcome := IsCleared;
    }

    /** The increment, then the insert and the commit, which a unique row refuses. */
    method FinishSet(r: Row, cleared: bool, held: set<Row>, locked: set<int>) returns (outcome: Outcome)
      requires Valid() && r.media in db.media
      requires cleared ==> Opposite(r.kind).Some?
      requires held == Removed(Set(r, cleared)) && held <= db.rows
      modifies this
      ensures Valid()
      ensures mine == old(mine) || (mine == old(mine) + [Set(r, cleared)] && outcome == IsSet)
      ensures outcome == IsSet ==> r in db.rows
      ensures outcome == IsSet || outcome == Crashed
      ensures NoneAbout(old(turns), r.media, r.user) && Alone(old(db), r) == Set(r, cleared) ==>
                SerialResult(old(db), old(mine), db, mine, r, outcome)
      ensures old(turns) == [] ==>
                outcome == IsSet && db == if r in old(db.rows) then old(db) else Commit(old(db), Set(r, cleared))
    {
      var ok := Pause(held, locked, r.media, r.user);
      if !ok {
        return Crashed;
      }
      ok := Pause(held, {r.media}, r.media, r.user);
      if !ok {
        return Crashed;
      }
      if r in db.rows {
        return IsSet;
      }
      CommitAct(Set(r, cleared));
      mine := mine + [Set(r, cleared)];
      outcome := IsSet;
    }
  }
}
