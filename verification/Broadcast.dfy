/**
 * app/services/broadcast.py and the broadcast part of app/workers/main.py: a
 * job with a ledger of recipients, drained page by page by one worker that may
 * crash anywhere.
 */
module Broadcast {
  import opened Wrappers

  const PAGE_SIZE := 100
  const SNAPSHOT_CHUNK := 1000

  datatype JobStatus = Queued | Running | Done | Aborted
  datatype Status = Pending | Sent | Failed | Blocked

  /** Jobs and recipients are numbered by their place in the ledger. */
  datatype Job = Job(tenant: int, status: JobStatus, total: nat, sent: nat, failed: nat, blocked: nat)
  datatype Recipient = Recipient(job: nat, user: int, chat: int, status: Status)
  datatype Ledger = Ledger(jobs: seq<Job>, rows: seq<Recipient>, blockedUsers: set<int>)

  // ---- counting the ledger -----------------------------------------------------

  function Count(rows: seq<Recipient>, job: nat, st: Status): nat {
    if rows == [] then 0
    else
      var r := rows[|rows| - 1];
      Count(rows[..|rows| - 1], job, st) + if r.job == job && r.status == st then 1 else 0
  }

  function Size(rows: seq<Recipient>, job: nat): nat {
    Count(rows, job, Pending) + Count(rows, job, Sent) + Count(rows, job, Failed) + Count(rows, job, Blocked)
  }

  /** The ids of the pending recipients of a job, oldest first. */
  function PendingOf(rows: seq<Recipient>, job: nat): seq<nat> {
    if rows == [] then []
    else
      var front, r := rows[..|rows| - 1], rows[|rows| - 1];
      if r.job == job && r.status == Pending then PendingOf(front, job) + [|front|] else PendingOf(front, job)
  }

  /** The places of the recipients of a job that have a status. */
  ghost function Places(rows: seq<Recipient>, job: nat, st: Status): set<int> {
    set i | 0 <= i < |rows| && rows[i].job == job && rows[i].status == st
  }

  lemma {:induction false} CountIs(rows: seq<Recipient>, job: nat, st: Status)
    ensures Count(rows, job, st) == |Places(rows, job, st)|
  {
    if rows != [] {
      var front, last := rows[..|rows| - 1], rows[|rows| - 1];
      CountIs(front, job, st);
      PlacesSnoc(front, last, job, st);
      assert rows == front + [last];
    }
  }

  lemma PlacesSnoc(front: seq<Recipient>, last: Recipient, job: nat, st: Status)
    ensures |Places(front + [last], job, st)| ==
            |Places(front, job, st)| + if last.job == job && last.status == st then 1 else 0
  {
    var rows := front + [last];
    assert Places(rows, job, st) ==
        Places(front, job, st) + if last.job == job && last.status == st then {|front|} else {};
  }

  lemma {:induction false} CountUpdate(rows: seq<Recipient>, i: nat, to: Status, job: nat, st: Status)
    requires i < |rows|
    ensures Count(rows[i := rows[i].(status := to)], job, st) ==
            Count(rows, job, st)
            + (if rows[i].job == job && to == st then 1 else 0)
            - (if rows[i].job == job && rows[i].status == st then 1 else 0)
  {
    var front := rows[..|rows| - 1];
    var now := rows[i := rows[i].(status := to)];
    if i == |rows| - 1 {
      assert now[..|now| - 1] == front;
    } else {
      CountUpdate(front, i, to, job, st);
      assert now[..|now| - 1] == front[i := front[i].(status := to)];
    }
  }

  lemma SizeUpdate(rows: seq<Recipient>, i: nat, to: Status, job: nat)
    requires i < |rows|
    ensures Size(rows[i := rows[i].(status := to)], job) == Size(rows, job)
  {
    CountUpdate(rows, i, to, job, Pending);
    CountUpdate(rows, i, to, job, Sent);
    CountUpdate(rows, i, to, job, Failed);
    CountUpdate(rows, i, to, job, Blocked);
  }

  lemma {:induction false} PendingIs(rows: seq<Recipient>, job: nat)
    ensures |PendingOf(rows, job)| == Count(rows, job, Pending)
    ensures forall k :: 0 <= k < |PendingOf(rows, job)| ==>
              PendingOf(rows, job)[k] < |rows| && rows[PendingOf(rows, job)[k]].job == job
              && rows[PendingOf(rows, job)[k]].status == Pending
    ensures forall k, l :: 0 <= k < l < |PendingOf(rows, job)| ==> PendingOf(rows, job)[k] < PendingOf(rows, job)[l]
    ensures forall i :: 0 <= i < |rows| && rows[i].job == job && rows[i].status == Pending ==> i in PendingOf(rows, job)
  {
    if rows != [] {
      var front := rows[..|rows| - 1];
      PendingIs(front, job);
      var last := rows[|rows| - 1];
      if last.job == job && last.status == Pending {
        assert PendingOf(rows, job)[|PendingOf(front, job)|] == |front|;
        forall i | 0 <= i < |rows| && rows[i].job == job && rows[i].status == Pending
          ensures i in PendingOf(rows, job) {
          if i < |front| {
            assert front[i] == rows[i] && i in PendingOf(front, job);
          }
        }
      } else {
        forall i | 0 <= i < |rows| && rows[i].job == job && rows[i].status == Pending
          ensures i in PendingOf(rows, job) {
          assert front[i] == rows[i];
        }
      }
    }
  }

  // ---- the next job -----------------------------------------------------------------

  predicate Unfinished(j: Job) {
    j.status == Queued || j.status == Running
  }

  /** The oldest unfinished job, of one tenant or of any, from `k` on. */
  function Oldest(jobs: seq<Job>, k: nat, tenant: Option<int>): (r: Option<nat>)
    ensures r.Some? ==>
              k <= r.value < |jobs| && Unfinished(jobs[r.value])
              && (tenant.Some? ==> jobs[r.value].tenant == tenant.value)
    ensures forall i :: k <= i < (if r.Some? then r.value else |jobs|) ==>
              !(Unfinished(jobs[i]) && (tenant.Some? ==> jobs[i].tenant == tenant.value))
    decreases |jobs| - k
  {
    if k >= |jobs| then None
    else if Unfinished(jobs[k]) && (tenant.Some? ==> jobs[k].tenant == tenant.value) then Some(k)
    else Oldest(jobs, k + 1, tenant)
  }

  /** The job seen across all tenants is the one claimed in its tenant's scope. */
  lemma OldestIsClaimed(jobs: seq<Job>)
    ensures var all := Oldest(jobs, 0, None);
            all.Some? ==> Oldest(jobs, 0, Some(jobs[all.value].tenant)) == all
  {
  }

  // ---- sends ---------------------------------------------------------------------------

  /** What the messenger answers; after a back-off the send is tried once more. */
  datatype Reply = Accepted | RetryAfter(second: Reply) | Forbidden | OtherError

  function Outcome(reply: Reply): Status {
    match reply
    case Accepted => Sent
    case RetryAfter(second) => if second == Accepted then Sent else Failed
    case Forbidden => Blocked
    case OtherError => Failed
  }

  /** The recipient got the message: at once, or at the one try after a back-off. */
  predicate Delivers(reply: Reply) {
    reply == Accepted || reply == RetryAfter(Accepted)
  }

  /** A row is sent exactly if its message was delivered, blocked if the bot may not write, and failed otherwise. */
  lemma OutcomeMeans(reply: Reply)
    ensures Outcome(reply) == Sent <==> Delivers(reply)
    ensures Outcome(reply) == Blocked <==> reply == Forbidden
    ensures Outcome(reply) == Failed <==> !Delivers(reply) && reply != Forbidden
  {
  }

  datatype Crash = NoCrash | BeforeSend | BeforeCommit | AfterCommit

  datatype Attempt = Attempt(reply: Reply, crash: Crash)

  /** One answer for each place of a page; a crash past its end comes before the counts are stored. */
  type World = nat -> Attempt

  // ---- a pass as a function ------------------------------------------------------------

  function Attempted(rows: seq<Recipient>, page: seq<nat>, n: nat, world: World): (r: seq<Recipient>)
    requires n <= |page| && forall k :: 0 <= k < |page| ==> page[k] < |rows|
    ensures |r| == |rows|
  {
    if n == 0 then rows
    else
      var before := Attempted(rows, page, n - 1, world);
      before[page[n - 1] := before[page[n - 1]].(status := Outcome(world(n - 1).reply))]
  }

  function BlockedBy(rows: seq<Recipient>, page: seq<nat>, n: nat, world: World): set<int>
    requires n <= |page| && forall k :: 0 <= k < |page| ==> page[k] < |rows|
  {
    if n == 0 then {}
    else if Outcome(world(n - 1).reply) == Blocked then BlockedBy(rows, page, n - 1, world) + {rows[page[n - 1]].user}
    else BlockedBy(rows, page, n - 1, world)
  }

  function Counted(j: Job, rows: seq<Recipient>, job: nat): Job {
    j.(sent := Count(rows, job, Sent), failed := Count(rows, job, Failed), blocked := Count(rows, job, Blocked),
       total := Size(rows, job))
  }

  function Finalized(j: Job, rows: seq<Recipient>, job: nat): Job {
    var c := Counted(j, rows, job);
    c.(status := if c.sent > 0 || c.total == 0 then Done else Aborted)
  }

  /** What a pass over job `job` does when the bot is there and nothing crashes. */
  function Pass(l: Ledger, job: nat, world: World): Ledger
    requires job < |l.jobs|
  {
    PageIs(l.rows, job);
    var page := Take(PendingOf(l.rows, job), PAGE_SIZE);
    if page == [] then l.(jobs := l.jobs[job := Finalized(l.jobs[job], l.rows, job)])
    else
      var rows := Attempted(l.rows, page, |page|, world);
      Ledger(l.jobs[job := Counted(l.jobs[job].(status := Running), rows, job)], rows,
             l.blockedUsers + BlockedBy(l.rows, page, |page|, world))
  }

  lemma AttemptOne(rows: seq<Recipient>, i: nat, to: Status, job: nat)
    requires i < |rows| && rows[i].job == job && rows[i].status == Pending && to != Pending
    ensures var now := rows[i := rows[i].(status := to)];
            && Count(now, job, Pending) == Count(rows, job, Pending) - 1
            && (forall j: nat :: Size(now, j) == Size(rows, j))
            && (forall j: nat, st :: j != job ==> Count(now, j, st) == Count(rows, j, st))
  {
    hide Count, Size;
    var now := rows[i := rows[i].(status := to)];
    CountUpdate(rows, i, to, job, Pending);
    forall j: nat ensures Size(now, j) == Size(rows, j) {
      SizeUpdate(rows, i, to, j);
    }
    forall j: nat, st | j != job ensures Count(now, j, st) == Count(rows, j, st) {
      CountUpdate(rows, i, to, j, st);
    }
  }

  /** A page of pending rows of one job, each once. */
  ghost predicate PageOf(rows: seq<Recipient>, page: seq<nat>, job: nat) {
    && (forall k :: 0 <= k < |page| ==> page[k] < |rows| && rows[page[k]].job == job && rows[page[k]].status == Pending)
    && (forall k, l :: 0 <= k < l < |page| ==> page[k] < page[l])
  }

  lemma NoneAttempted(rows: seq<Recipient>, page: seq<nat>, world: World)
    requires forall k :: 0 <= k < |page| ==> page[k] < |rows|
    ensures Attempted(rows, page, 0, world) == rows && BlockedBy(rows, page, 0, world) == {}
  {
  }

  lemma AttemptedNext(rows: seq<Recipient>, page: seq<nat>, n: nat, world: World)
    requires n < |page| && forall k :: 0 <= k < |page| ==> page[k] < |rows|
    ensures Attempted(rows, page, n + 1, world) ==
            var before := Attempted(rows, page, n, world);
            before[page[n] := before[page[n]].(status := Outcome(world(n).reply))]
    ensures BlockedBy(rows, page, n + 1, world) ==
            var before := BlockedBy(rows, page, n, world);
            if world(n).reply == Forbidden then before + {rows[page[n]].user} else before
  {
    OutcomeMeans(world(n).reply);
  }

  /** Exactly the users who forbid the bot to write are blocked. */
  lemma {:induction false} BlockedByIs(rows: seq<Recipient>, page: seq<nat>, n: nat, world: World)
    requires n <= |page| && forall k :: 0 <= k < |page| ==> page[k] < |rows|
    ensures forall u :: u in BlockedBy(rows, page, n, world) <==>
              exists k :: 0 <= k < n && world(k).reply == Forbidden && rows[page[k]].user == u
  {
    if n > 0 {
      BlockedByIs(rows, page, n - 1, world);
      AttemptedNext(rows, page, n - 1, world);
    }
  }

  /** Every row of the page gets its own answer, and no other row changes. */
  lemma {:induction false} AttemptedIs(rows: seq<Recipient>, page: seq<nat>, n: nat, world: World, job: nat)
    requires n <= |page| && PageOf(rows, page, job)
    ensures forall k :: 0 <= k < n ==>
              Attempted(rows, page, n, world)[page[k]] == rows[page[k]].(status := Outcome(world(k).reply))
    ensures forall i :: 0 <= i < |rows| && i !in page[..n] ==> Attempted(rows, page, n, world)[i] == rows[i]
  {
    if n > 0 {
      AttemptedIs(rows, page, n - 1, world, job);
      var i := page[n - 1];
      assert page[..n] == page[..n - 1] + [i];
      assert i !in page[..n - 1];
    }
  }

  /** The next row of the page is as it was. */
  lemma NextIsPending(rows: seq<Recipient>, page: seq<nat>, n: nat, world: World, job: nat)
    requires n < |page| && PageOf(rows, page, job)
    ensures Attempted(rows, page, n, world)[page[n]] == rows[page[n]]
    ensures rows[page[n]].job == job && rows[page[n]].status == Pending
  {
    AttemptedIs(rows, page, n, world, job);
  }

  /** A row of the page is sent exactly if its own message was delivered. */
  lemma AttemptedMeans(rows: seq<Recipient>, page: seq<nat>, n: nat, world: World, job: nat)
    requires n <= |page| && PageOf(rows, page, job)
    ensures forall k :: 0 <= k < n ==>
              var st := Attempted(rows, page, n, world)[page[k]].status;
              && (st == Sent <==> Delivers(world(k).reply)) && (st == Blocked <==> world(k).reply == Forbidden)
              && st != Pending
  {
    hide Outcome, Delivers;
    AttemptedIs(rows, page, n, world, job);
    forall k | 0 <= k < n
      ensures var st := Attempted(rows, page, n, world)[page[k]].status;
              && (st == Sent <==> Delivers(world(k).reply)) && (st == Blocked <==> world(k).reply == Forbidden)
              && st != Pending
    {
      OutcomeMeans(world(k).reply);
      OutcomeIsFinal(world(k).reply);
    }
  }

  lemma {:induction false} AttemptedCounts(rows: seq<Recipient>, page: seq<nat>, n: nat, world: World, job: nat)
    requires n <= |page| && PageOf(rows, page, job)
    ensures var now := Attempted(rows, page, n, world);
            && Count(now, job, Pending) == Count(rows, job, Pending) - n
            && (forall j: nat :: Size(now, j) == Size(rows, j))
            && (forall j: nat, st :: j != job ==> Count(now, j, st) == Count(rows, j, st))
  {
    hide Count, Size, Outcome;
    if n > 0 {
      AttemptedCounts(rows, page, n - 1, world, job);
      AttemptedIs(rows, page, n - 1, world, job);
      var before := Attempted(rows, page, n - 1, world);
      var i := page[n - 1];
      assert i !in page[..n - 1];
      OutcomeIsFinal(world(n - 1).reply);
      AttemptOne(before, i, Outcome(world(n - 1).reply), job);
    }
  }

  lemma OutcomeIsFinal(reply: Reply)
    ensures Outcome(reply) != Pending
  {
  }

  lemma PageIs(rows: seq<Recipient>, job: nat)
    ensures PageOf(rows, Take(PendingOf(rows, job), PAGE_SIZE), job)
    ensures |Take(PendingOf(rows, job), PAGE_SIZE)| == Min(PAGE_SIZE, Count(rows, job, Pending))
  {
    PendingIs(rows, job);
  }

  // ---- draining a job ----------------------------------------------------------------------

  lemma PassEffect(l: Ledger, job: nat, world: World)
    requires job < |l.jobs|
    ensures var p := Count(l.rows, job, Pending);
            var next := Pass(l, job, world);
            && |next.jobs| == |l.jobs| && Count(next.rows, job, Pending) == p - Min(p, PAGE_SIZE)
            && Size(next.rows, job) == Size(l.rows, job)
            && next.jobs[..job] == l.jobs[..job]
            && (p > 0 ==> next.jobs[job].status == Running)
            && (p == 0 ==> next.jobs[job] == Finalized(l.jobs[job], l.rows, job) && next.rows == l.rows)
  {
    hide Count, Size;
    PageIs(l.rows, job);
    var page := Take(PendingOf(l.rows, job), PAGE_SIZE);
    if page != [] {
      AttemptedCounts(l.rows, page, |page|, world, job);
    }
  }

  /** Passes one after the other, each over the oldest unfinished job of any tenant. */
  function Passes(l: Ledger, n: nat, worlds: nat -> World): Ledger {
    if n == 0 then l
    else
      var before := Passes(l, n - 1, worlds);
      var job := Oldest(before.jobs, 0, None);
      if job == None then before else Pass(before, job.value, worlds(n - 1))
  }

  function CeilDiv(p: nat): nat {
    (p + PAGE_SIZE - 1) / PAGE_SIZE
  }

  lemma OldestStays(jobs: seq<Job>, now: seq<Job>, job: nat)
    requires Oldest(jobs, 0, None) == Some(job) && |now| == |jobs| && now[..job] == jobs[..job] && Unfinished(now[job])
    ensures Oldest(now, 0, None) == Some(job)
  {
    var r := Oldest(now, 0, None);
    forall i | 0 <= i < job ensures !Unfinished(now[i]) {
      assert now[i] == now[..job][i] == jobs[..job][i];
    }
    assert r.Some? && r.value == job;
  }

  lemma {:induction false} PagesRemain(l: Ledger, job: nat, n: nat, worlds: nat -> World)
    requires Oldest(l.jobs, 0, None) == Some(job)
    requires n <= CeilDiv(Count(l.rows, job, Pending))
    ensures var now := Passes(l, n, worlds);
            && Oldest(now.jobs, 0, None) == Some(job)
            && |now.jobs| == |l.jobs|
            && Count(now.rows, job, Pending) == Max(0, Count(l.rows, job, Pending) - n * PAGE_SIZE)
            && Size(now.rows, job) == Size(l.rows, job)
  {
    hide Count, Size, PendingOf, Pass, Oldest;
    if n > 0 {
      PagesRemain(l, job, n - 1, worlds);
      var before := Passes(l, n - 1, worlds);
      PassEffect(before, job, worlds(n - 1));
      assert Count(before.rows, job, Pending) > 0;
      OldestStays(before.jobs, Passes(l, n, worlds).jobs, job);
    }
  }

  lemma FinalizedAddsUp(j: Job, rows: seq<Recipient>, job: nat)
    requires Count(rows, job, Pending) == 0
    ensures var f := Finalized(j, rows, job);
            && f.sent == Count(rows, job, Sent) && f.failed == Count(rows, job, Failed)
            && f.blocked == Count(rows, job, Blocked) && f.tenant == j.tenant
            && f.sent + f.failed + f.blocked == f.total == Size(rows, job)
            && f.status == (if f.sent > 0 || Size(rows, job) == 0 then Done else Aborted)
  {
  }

  /**
   * The exact bound: with a live bot, no crash and no retry, the oldest job with
   * p pending recipients is unfinished after ceil(p/100) passes and finished
   * after one more; then nothing is pending, the three counts add up to the
   * snapshot, and it is done exactly if something was sent or nobody was asked.
   */
  lemma DrainsInExactlyCeilPlusOne(l: Ledger, job: nat, worlds: nat -> World)
    requires Oldest(l.jobs, 0, None) == Some(job)
    ensures var p := Count(l.rows, job, Pending);
            && (forall n: nat :: n <= CeilDiv(p) ==> Oldest(Passes(l, n, worlds).jobs, 0, None) == Some(job))
            && var end := Passes(l, CeilDiv(p) + 1, worlds);
            && |end.jobs| == |l.jobs|
            && Count(end.rows, job, Pending) == 0
            && end.jobs[job].sent == Count(end.rows, job, Sent) && end.jobs[job].failed == Count(end.rows, job, Failed)
            && end.jobs[job].blocked == Count(end.rows, job, Blocked)
            && end.jobs[job].sent + end.jobs[job].failed + end.jobs[job].blocked == end.jobs[job].total ==
                Size(l.rows, job)
            && end.jobs[job].status == (if end.jobs[job].sent > 0 || Size(l.rows, job) == 0 then Done else Aborted)
  {
    hide Count, PendingOf, Pass, Oldest, Size, PageOf;
    var p := Count(l.rows, job, Pending);
    var last := Passes(l, CeilDiv(p), worlds);
    forall n: nat | n <= CeilDiv(p) ensures Oldest(Passes(l, n, worlds).jobs, 0, None) == Some(job) {
      PagesRemain(l, job, n, worlds);
    }
    PagesRemain(l, job, CeilDiv(p), worlds);
    PassEffect(last, job, worlds(CeilDiv(p)));
    assert Passes(l, CeilDiv(p) + 1, worlds) == Pass(last, job, worlds(CeilDiv(p)));
    FinalizedAddsUp(last.jobs[job], last.rows, job);
  }

  // ---- what every operation keeps ---------------------------------------------------------------

  ghost predicate JobSound(l: Ledger, j: nat)
    requires j < |l.jobs|
  {
    && l.jobs[j].total == Size(l.rows, j)
    && (l.jobs[j].status == Done ==> l.jobs[j] == Counted(l.jobs[j], l.rows, j) && Count(l.rows, j, Pending) == 0)
  }

  ghost predicate Sound(l: Ledger) {
    && (forall i :: 0 <= i < |l.rows| ==> l.rows[i].job < |l.jobs|)
    && (forall i, k :: 0 <= i < k < |l.rows| && l.rows[i].job == l.rows[k].job ==> l.rows[i].user != l.rows[k].user)
    && (forall j :: 0 <= j < |l.jobs| ==> JobSound(l, j))
  }

  /** The messages a recipient got: one if the row says so, and one for each crash that lost the row's update. */
  ghost predicate Tally(rows: seq<Recipient>, sends: seq<nat>, lost: seq<nat>) {
    && |sends| == |lost| == |rows|
    && forall i :: 0 <= i < |rows| ==> sends[i] == lost[i] + if rows[i].status == Sent then 1 else 0
  }

  /** Rows keep who they are for, and a sent row stays sent. */
  ghost predicate Follows(before: seq<Recipient>, after: seq<Recipient>) {
    && |before| <= |after|
    && forall i :: 0 <= i < |before| ==>
         after[i].(status := before[i].status) == before[i] && (before[i].status == Sent ==> after[i].status == Sent)
  }

  lemma FollowsTrans(before: seq<Recipient>, mid: seq<Recipient>, after: seq<Recipient>)
    requires Follows(before, mid) && Follows(mid, after)
    ensures Follows(before, after)
  {
    forall i | 0 <= i < |before|
      ensures after[i].(status := before[i].status) == before[i]
      ensures before[i].status == Sent ==> after[i].status == Sent
    {
      assert mid[i].(status := before[i].status) == before[i];
    }
  }

  /** One more message for recipient `i`, if `yes`. */
  ghost predicate Bumped(before: seq<nat>, after: seq<nat>, i: nat, yes: bool)
    requires i < |before|
  {
    after == if yes then before[i := before[i] + 1] else before
  }

  /** At most one more message has been lost track of. */
  ghost predicate OneMoreAtMost(before: seq<nat>, after: seq<nat>) {
    after == before || exists i :: 0 <= i < |before| && after == before[i := before[i] + 1]
  }

  lemma OneMore(before: seq<nat>, after: seq<nat>, i: nat, yes: bool)
    requires i < |before| && Bumped(before, after, i, yes)
    ensures OneMoreAtMost(before, after) && (!yes ==> after == before)
  {
  }

  lemma {:induction false} NoRows(rows: seq<Recipient>, job: nat, st: Status)
    requires forall i :: 0 <= i < |rows| ==> rows[i].job != job
    ensures Count(rows, job, st) == 0
  {
    if rows != [] {
      NoRows(rows[..|rows| - 1], job, st);
    }
  }

  /** A change to the rows of one job and to that job's own row. */
  lemma OneJobSound(l: Ledger, now: Ledger, job: nat)
    requires Sound(l) && job < |l.jobs| && |now.rows| == |l.rows| && |now.jobs| == |l.jobs|
    requires forall i :: 0 <= i < |l.rows| ==> now.rows[i].(status := l.rows[i].status) == l.rows[i]
    requires forall j :: 0 <= j < |l.jobs| && j != job ==>
              now.jobs[j] == l.jobs[j] && Size(now.rows, j) == Size(l.rows, j)
    requires forall j, st :: 0 <= j < |l.jobs| && j != job ==> Count(now.rows, j, st) == Count(l.rows, j, st)
    requires JobSound(now, job)
    ensures Sound(now)
  {
    hide Count, Size;
    forall i, k | 0 <= i < k < |now.rows| && now.rows[i].job == now.rows[k].job
      ensures now.rows[i].user != now.rows[k].user {
      assert l.rows[i].job == l.rows[k].job;
    }
    forall j | 0 <= j < |now.jobs| ensures JobSound(now, j) {
      if j != job {
        assert JobSound(l, j);
      }
    }
  }

  lemma OneRowSound(l: Ledger, i: nat, to: Status)
    requires Sound(l) && i < |l.rows| && l.jobs[l.rows[i].job].status != Done
    ensures Sound(l.(rows := l.rows[i := l.rows[i].(status := to)]))
  {
    var job := l.rows[i].job;
    var now := l.(rows := l.rows[i := l.rows[i].(status := to)]);
    assert JobSound(l, job);
    forall j: nat ensures Size(now.rows, j) == Size(l.rows, j) {
      SizeUpdate(l.rows, i, to, j);
    }
    forall j: nat, st | j != job ensures Count(now.rows, j, st) == Count(l.rows, j, st) {
      CountUpdate(l.rows, i, to, j, st);
    }
    OneJobSound(l, now, job);
  }

  lemma OneJobRowSound(l: Ledger, job: nat, j: Job)
    requires Sound(l) && job < |l.jobs| && JobSound(l.(jobs := l.jobs[job := j]), job)
    ensures Sound(l.(jobs := l.jobs[job := j]))
  {
    OneJobSound(l, l.(jobs := l.jobs[job := j]), job);
  }

  // ---- snapshots --------------------------------------------------------------------------------

  datatype User = User(id: int, chat: int, plan: Option<string>, blocked: bool)

  predicate InAudience(u: User, filter: string) {
    && !u.blocked
    && (filter == "free" ==> u.plan == None || u.plan.value == "free")
    && (filter == "premium" ==> u.plan.Some? && (u.plan.value == "plus" || u.plan.value == "max"))
  }

  function Audience(users: seq<User>, filter: string): seq<(int, int)> {
    if users == [] then []
    else
      var front, u := Audience(users[..|users| - 1], filter), users[|users| - 1];
      if InAudience(u, filter) then front + [(u.id, u.chat)] else front
  }

  /** A user's first pair with a chat counts; pairs without a chat do not. */
  function Deduped(pairs: seq<(int, int)>): seq<(int, int)> {
    if pairs == [] then []
    else
      var front, p := Deduped(pairs[..|pairs| - 1]), pairs[|pairs| - 1];
      if p.1 == 0 || p.0 in Users(front) then front else front + [p]
  }

  function Users(pairs: seq<(int, int)>): set<int> {
    set i | 0 <= i < |pairs| :: pairs[i].0
  }

  ghost predicate Distinct(pairs: seq<(int, int)>) {
    forall i, k :: 0 <= i < k < |pairs| ==> pairs[i].0 != pairs[k].0
  }

  lemma UsersSnoc(pairs: seq<(int, int)>, p: (int, int))
    ensures Users(pairs + [p]) == Users(pairs) + {p.0}
  {
    assert forall i :: 0 <= i < |pairs| ==> (pairs + [p])[i] == pairs[i];
    assert (pairs + [p])[|pairs|] == p;
    forall u | u in Users(pairs) + {p.0} ensures u in Users(pairs + [p]) {
      if u in Users(pairs) {
        var i :| 0 <= i < |pairs| && pairs[i].0 == u;
        assert (pairs + [p])[i].0 == u;
      }
    }
  }

  /** Some pair gives the user a chat. */
  ghost predicate Named(pairs: seq<(int, int)>, u: int) {
    exists k :: 0 <= k < |pairs| && pairs[k].0 == u && pairs[k].1 != 0
  }

  /** `p` is the first pair that gives its user a chat. */
  ghost predicate FirstNamed(pairs: seq<(int, int)>, p: (int, int)) {
    exists k :: 0 <= k < |pairs| && pairs[k] == p && p.1 != 0 && !Named(pairs[..k], p.0)
  }

  lemma NamedSnoc(front: seq<(int, int)>, p: (int, int), u: int)
    ensures Named(front + [p], u) <==> Named(front, u) || (p.0 == u && p.1 != 0)
  {
    var pairs := front + [p];
    assert pairs[|front|] == p;
    if k :| 0 <= k < |front| && front[k].0 == u && front[k].1 != 0 {
      assert pairs[k] == front[k];
    }
  }

  lemma FirstNamedSnoc(front: seq<(int, int)>, p: (int, int), q: (int, int))
    ensures FirstNamed(front, q) ==> FirstNamed(front + [p], q)
    ensures p.1 != 0 && !Named(front, p.0) ==> FirstNamed(front + [p], p)
  {
    hide Named;
    var pairs := front + [p];
    assert pairs[|front|] == p && pairs[..|front|] == front;
    if FirstNamed(front, q) {
      var k :| 0 <= k < |front| && front[k] == q && q.1 != 0 && !Named(front[..k], q.0);
      assert pairs[k] == q && pairs[..k] == front[..k];
    }
  }

  /** Each user with a reachable chat is asked exactly once, at the first such chat given. */
  lemma {:induction false} DedupedOnce(pairs: seq<(int, int)>)
    ensures Distinct(Deduped(pairs))
    ensures forall u :: u in Users(Deduped(pairs)) <==> Named(pairs, u)
    ensures forall p :: p in Deduped(pairs) ==> FirstNamed(pairs, p)
  {
    if pairs != [] {
      hide Named, FirstNamed;
      var front, p := pairs[..|pairs| - 1], pairs[|pairs| - 1];
      assert pairs == front + [p];
      DedupedOnce(front);
      UsersSnoc(Deduped(front), p);
      forall u ensures u in Users(Deduped(pairs)) <==> Named(pairs, u) {
        NamedSnoc(front, p, u);
      }
      forall q | q in Deduped(pairs) ensures FirstNamed(pairs, q) {
        FirstNamedSnoc(front, p, q);
      }
    } else {
      assert forall u :: !Named(pairs, u);
    }
  }

  function Snapshot(job: nat, pairs: seq<(int, int)>): (rows: seq<Recipient>)
    ensures |rows| == |pairs|
            && forall i :: 0 <= i < |pairs| ==> rows[i] == Recipient(job, pairs[i].0, pairs[i].1, Pending)
  {
    seq(|pairs|, i requires 0 <= i < |pairs| => Recipient(job, pairs[i].0, pairs[i].1, Pending))
  }

  lemma {:induction false} SnapshotCounts(rows: seq<Recipient>, job: nat, pairs: seq<(int, int)>, j: nat, st: Status)
    ensures Count(rows + Snapshot(job, pairs), j, st) == Count(rows, j, st) + if j == job && st == Pending
              then |pairs| else 0
    decreases |pairs|
  {
    var all := rows + Snapshot(job, pairs);
    if pairs == [] {
      assert all == rows;
    } else {
      var front := pairs[..|pairs| - 1];
      SnapshotCounts(rows, job, front, j, st);
      assert all[..|all| - 1] == rows + Snapshot(job, front);
      assert all[|all| - 1] == Snapshot(job, pairs)[|pairs| - 1];
    }
  }

  lemma SnapshotSound(l: Ledger, pairs: seq<(int, int)>, tenant: int)
    requires Sound(l) && Distinct(pairs)
    ensures Sound(l.(jobs := l.jobs + [Job(tenant, Queued, |pairs|, 0, 0, 0)],
                     rows := l.rows + Snapshot(|l.jobs|, pairs)))
  {
    var job := |l.jobs|;
    var now := l.(jobs := l.jobs + [Job(tenant, Queued, |pairs|, 0, 0, 0)], rows := l.rows + Snapshot(job, pairs));
    forall j: nat, st
      ensures Count(now.rows, j, st) == Count(l.rows, j, st) + if j == job && st == Pending then |pairs| else 0 {
      SnapshotCounts(l.rows, job, pairs, j, st);
    }
    forall st ensures Count(l.rows, job, st) == 0 {
      NoRows(l.rows, job, st);
    }
    hide Count;
    forall j | 0 <= j < |now.jobs| ensures JobSound(now, j) {
      if j < job {
        assert JobSound(l, j);
      }
    }
    forall i, k | 0 <= i < k < |now.rows| && now.rows[i].job == now.rows[k].job
      ensures now.rows[i].user != now.rows[k].user {
      if i >= |l.rows| {
        assert pairs[i - |l.rows|].0 != pairs[k - |l.rows|].0;
      }
    }
  }
}
