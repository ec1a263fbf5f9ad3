/** The broadcast service and the worker's pass, over a store that is committed step by step. */
module BroadcastService {
  import opened Wrappers
  import opened Broadcast

  // ---- retry ------------------------------------------------------------------

  /** The failed recipients of a job, and only they, are pending again. */
  function Requeued(rows: seq<Recipient>, job: nat): (now: seq<Recipient>)
    ensures |now| == |rows|
  {
    seq(|rows|, i requires 0 <= i < |rows| =>
      if rows[i].job == job && rows[i].status == Failed then rows[i].(status := Pending) else rows[i])
  }

  lemma {:induction false} RequeuedCounts(rows: seq<Recipient>, job: nat, j: nat, st: Status)
    ensures Count(Requeued(rows, job), j, st) ==
            if j != job then Count(rows, j, st)
            else if st == Failed then 0
            else Count(rows, j, st) + if st == Pending then Count(rows, j, Failed) else 0
  {
    if rows != [] {
      var front := rows[..|rows| - 1];
      RequeuedCounts(front, job, j, st);
      assert Requeued(rows, job)[..|rows| - 1] == Requeued(front, job);
    }
  }

  function Retry(l: Ledger, job: nat): Ledger {
    if Count(l.rows, job, Failed) == 0 || job >= |l.jobs| then l
    else l.(rows := Requeued(l.rows, job), jobs := l.jobs[job := l.jobs[job].(status := Queued)])
  }

  lemma RetrySound(l: Ledger, job: nat)
    requires Sound(l)
    ensures Sound(Retry(l, job)) && Follows(l.rows, Retry(l, job).rows)
    ensures Count(l.rows, job, Failed) > 0 ==> job < |l.jobs|
  {
    if job >= |l.jobs| {
      NoRows(l.rows, job, Failed);
    } else if Count(l.rows, job, Failed) > 0 {
      var now := Retry(l, job);
      assert JobSound(l, job);
      forall j: nat, st
        ensures Count(now.rows, j, st) ==
                if j != job then Count(l.rows, j, st)
                else if st == Failed then 0
                else Count(l.rows, j, st) + if st == Pending then Count(l.rows, j, Failed) else 0
      {
        RequeuedCounts(l.rows, job, j, st);
      }
      OneJobSound(l, now, job);
    }
  }

  /**
   * A job that its tenant's missing bot aborted keeps its pending rows; no pass
   * takes it up again, and a retry reopens it if and only if a send had failed.
   */
  lemma AbortedStaysUnlessSomethingFailed(l: Ledger, job: nat)
    requires Sound(l) && job < |l.jobs| && l.jobs[job].status == Aborted
    ensures Oldest(l.jobs, 0, None) != Some(job)
    ensures Unfinished(Retry(l, job).jobs[job]) <==> Count(l.rows, job, Failed) > 0
    ensures Count(Retry(l, job).rows, job, Pending) == Count(l.rows, job, Pending) + Count(l.rows, job, Failed)
    ensures Count(Retry(l, job).rows, job, Sent) == Count(l.rows, job, Sent)
  {
    RequeuedCounts(l.rows, job, job, Pending);
    RequeuedCounts(l.rows, job, job, Sent);
  }

  /**
   * Such a ledger: the only recipient is still pending, the job is failed, and neither a pass
   * nor a retry changes it.
   */
  lemma StrandedRecipient()
    ensures var l := Ledger([Job(1, Aborted, 1, 0, 0, 0)], [Recipient(0, 7, 70, Pending)], {});
            && Sound(l) && Count(l.rows, 0, Pending) == 1 && Count(l.rows, 0, Failed) == 0
            && Oldest(l.jobs, 0, None) == None && Retry(l, 0) == l
  {
    var rows := [Recipient(0, 7, 70, Pending)];
    assert rows[..|rows| - 1] == [];
  }

  lemma {:induction false} AudienceDistinct(users: seq<User>, filter: string)
    requires forall i, k :: 0 <= i < k < |users| ==> users[i].id != users[k].id
    ensures Distinct(Audience(users, filter))
    ensures forall p :: p in Audience(users, filter) <==>
              exists k :: 0 <= k < |users| && p == (users[k].id, users[k].chat) && InAudience(users[k], filter)
  {
    if users != [] {
      var front, u := users[..|users| - 1], users[|users| - 1];
      AudienceDistinct(front, filter);
      assert u == users[|users| - 1];
      forall k | 0 <= k < |Audience(front, filter)| ensures Audience(front, filter)[k].0 != u.id {
        assert Audience(front, filter)[k] in Audience(front, filter);
      }
      forall p ensures p in Audience(users, filter) <==>
                       exists k :: 0 <= k < |users| && p == (users[k].id, users[k].chat) && InAudience(users[k], filter)
      {
        if p in Audience(front, filter) {
          var k :| 0 <= k < |front| && p == (front[k].id, front[k].chat) && InAudience(front[k], filter);
          assert users[k] == front[k];
        }
        if k :| 0 <= k < |users| && p == (users[k].id, users[k].chat) && InAudience(users[k], filter) {
          if k < |front| {
            assert users[k] == front[k];
          }
        }
      }
    }
  }

  /** Who is asked: nobody blocked, the unpaid for "free", the paid for "premium", and everybody else otherwise. */
  lemma AudienceIs(users: seq<User>, filter: string, u: User)
    requires (forall i, k :: 0 <= i < k < |users| ==> users[i].id != users[k].id) && u in users
    ensures (u.id, u.chat) in Audience(users, filter) <==>
            && !u.blocked
            && (filter == "free" ==> u.plan == None || u.plan == Some("free"))
            && (filter == "premium" ==> u.plan == Some("plus") || u.plan == Some("max"))
  {
    AudienceDistinct(users, filter);
    var n :| 0 <= n < |users| && users[n] == u;
    if k :| 0 <= k < |users| && (u.id, u.chat) == (users[k].id, users[k].chat) && InAudience(users[k], filter) {
      assert k == n;
    }
  }

  // ---- one pass -------------------------------------------------------------------

  /** Where a pass dies outside the sends: around the claim, or around the commit that ends the job. */
  datatype Stop = Never | BeforeClaim | AfterClaim | BeforeEnd | AfterEnd

  /**
   * What an uninterrupted pass over the job leaves: the page or the final status, or a failed
   * job for want of a bot.
   */
  function Ended(l: Ledger, job: nat, live: bool, world: World): Ledger
    requires job < |l.jobs|
  {
    if live then Pass(l, job, world) else l.(jobs := l.jobs[job := l.jobs[job].(status := Aborted)])
  }

  /** The job is claimed and the first recipients of its page have their outcome. */
  ghost predicate PartlyDone(l: Ledger, now: Ledger, job: nat, world: World)
    requires job < |l.jobs|
  {
    PageIs(l.rows, job);
    var page := Take(PendingOf(l.rows, job), PAGE_SIZE);
    && now.jobs == l.jobs[job := l.jobs[job].(status := Running)]
    && exists n :: 0 <= n <= |page| && now.rows == Attempted(l.rows, page, n, world)
  }

  lemma ClaimedIsPartlyDone(l: Ledger, now: Ledger, job: nat, world: World)
    requires job < |l.jobs| && now == l.(jobs := l.jobs[job := l.jobs[job].(status := Running)])
    ensures PartlyDone(l, now, job, world)
  {
    PageIs(l.rows, job);
    assert now.rows == Attempted(l.rows, Take(PendingOf(l.rows, job), PAGE_SIZE), 0, world);
  }

  lemma PageIsPartlyDone(l: Ledger, now: Ledger, job: nat, page: seq<nat>, world: World)
    requires job < |l.jobs| && page == Take(PendingOf(l.rows, job), PAGE_SIZE) && PageOf(l.rows, page, job)
    ensures PartOfPage(l.(jobs := l.jobs[job := l.jobs[job].(status := Running)]), now, page, world) ==>
              PartlyDone(l, now, job, world)
  {
  }

  /** `NextJobTenant` has found the tenant of the oldest unfinished job. */
  lemma OldestJob(jobs: seq<Job>, tenant: Option<int>)
    requires tenant == None <==> forall j :: j in jobs ==> !Unfinished(j)
    requires tenant.Some? ==>
               exists i :: 0 <= i < |jobs| && Unfinished(jobs[i]) && jobs[i].tenant == tenant.value
                           && forall k :: 0 <= k < i ==> !Unfinished(jobs[k])
    ensures var job := Oldest(jobs, 0, None); tenant == if job == None then None else Some(jobs[job.value].tenant)
  {
    var job := Oldest(jobs, 0, None);
    if job.Some? {
      assert jobs[job.value] in jobs;
    }
  }

  /**
   * The answer to recipient `i` is stored: the row is sent exactly if the message was
   * delivered, and the user is marked exactly if the bot may not write.
   */
  ghost predicate Stored(l: Ledger, now: Ledger, i: nat, reply: Reply)
    requires i < |l.rows|
  {
    && now.jobs == l.jobs && now.rows == l.rows[i := l.rows[i].(status := Outcome(reply))]
    && (now.rows[i].status == Sent <==> Delivers(reply)) && (now.rows[i].status == Blocked <==> reply == Forbidden)
    && now.blockedUsers == if reply == Forbidden then l.blockedUsers + {l.rows[i].user} else l.blockedUsers
  }

  /** A crash before the commit changes nothing, and one after it comes too late to. */
  ghost predicate StoredUnlessCrashed(l: Ledger, now: Ledger, i: nat, attempt: Attempt)
    requires i < |l.rows|
  {
    if attempt.crash == BeforeSend || attempt.crash == BeforeCommit then now == l
    else Stored(l, now, i, attempt.reply)
  }

  /** The first `n` recipients of the page have their answers stored, and nothing else has changed. */
  ghost predicate Drained(l: Ledger, now: Ledger, page: seq<nat>, n: nat, world: World)
    requires n <= |page| && forall k :: 0 <= k < |page| ==> page[k] < |l.rows|
  {
    && now.jobs == l.jobs && now.rows == Attempted(l.rows, page, n, world)
    && now.blockedUsers == l.blockedUsers + BlockedBy(l.rows, page, n, world)
  }

  /** Some first recipients of the page have their outcome. */
  ghost predicate PartOfPage(l: Ledger, now: Ledger, page: seq<nat>, world: World)
    requires forall k :: 0 <= k < |page| ==> page[k] < |l.rows|
  {
    now.jobs == l.jobs && exists n :: 0 <= n <= |page| && now.rows == Attempted(l.rows, page, n, world)
  }

  lemma DrainedNone(l: Ledger, page: seq<nat>, world: World)
    requires forall k :: 0 <= k < |page| ==> page[k] < |l.rows|
    ensures Drained(l, l, page, 0, world)
  {
  }

  lemma DrainedNext(l: Ledger, mid: Ledger, now: Ledger, page: seq<nat>, n: nat, world: World)
    requires n < |page| && forall k :: 0 <= k < |page| ==> page[k] < |l.rows|
    requires Drained(l, mid, page, n, world) && StoredUnlessCrashed(mid, now, page[n], world(n))
    requires world(n).crash == NoCrash || world(n).crash == AfterCommit
    ensures Drained(l, now, page, n + 1, world)
  {
    hide Outcome, Delivers, Attempted, BlockedBy;
    AttemptedNext(l.rows, page, n, world);
    SameUser(l.rows, page, n, world, page[n]);
  }

  /** The next recipient of the page is still pending, of a running job. */
  lemma NextOfPage(l: Ledger, now: Ledger, page: seq<nat>, n: nat, world: World, job: nat)
    requires n < |page| && PageOf(l.rows, page, job) && Drained(l, now, page, n, world)
    ensures now.jobs == l.jobs && |now.rows| == |l.rows| && page[n] < |l.rows|
    ensures now.rows[page[n]].job == job && now.rows[page[n]].status == Pending
  {
    NextIsPending(l.rows, page, n, world, job);
  }

  /** A crash in the attempt leaves the page done up to it, or through it. */
  lemma CrashedAt(l: Ledger, mid: Ledger, now: Ledger, page: seq<nat>, n: nat, world: World)
    requires n < |page| && forall k :: 0 <= k < |page| ==> page[k] < |l.rows|
    requires Drained(l, mid, page, n, world)
    requires StoredUnlessCrashed(mid, now, page[n], world(n))
    ensures PartOfPage(l, now, page, world)
  {
    if world(n).crash == AfterCommit || world(n).crash == NoCrash {
      DrainedNext(l, mid, now, page, n, world);
    }
  }

  /** A drained page with the counts stored. */
  lemma DrainedAll(l: Ledger, now: Ledger, page: seq<nat>, world: World, job: nat)
    requires (forall k :: 0 <= k < |page| ==> page[k] < |l.rows|) && Drained(l, now, page, |page|, world)
    requires job < |l.jobs|
    ensures now.jobs == l.jobs && now.rows == Attempted(l.rows, page, |page|, world)
    ensures now.(jobs := now.jobs[job := Counted(now.jobs[job], now.rows, job)]) ==
            var rows := Attempted(l.rows, page, |page|, world);
            Ledger(l.jobs[job := Counted(l.jobs[job], rows, job)], rows,
                   l.blockedUsers + BlockedBy(l.rows, page, |page|, world))
  {
  }

  lemma {:induction false} SameUser(rows: seq<Recipient>, page: seq<nat>, n: nat, world: World, i: nat)
    requires n <= |page| && i < |rows| && forall k :: 0 <= k < |page| ==> page[k] < |rows|
    ensures Attempted(rows, page, n, world)[i].user == rows[i].user
  {
    if n > 0 {
      SameUser(rows, page, n - 1, world, i);
    }
  }

  // ---- the store ------------------------------------------------------------------

  class Store {
    var ledger: Ledger
    /** For each recipient, the messages it got and those whose update a crash lost. */
    ghost var sends: seq<nat>
    ghost var lost: seq<nat>

    ghost predicate Valid()
      reads this
    {
      Sound(ledger) && Tally(ledger.rows, sends, lost)
    }

    constructor ()
      ensures Valid() && ledger == Ledger([], [], {})
    {
      ledger, sends, lost := Ledger([], [], {}), [], [];
    }

    /** The rows of a new job, inserted in chunks and committed with it. */
    method InsertJob(tenant: int, rows: seq<Recipient>, ghost pairs: seq<(int, int)>)
      requires Valid() && Distinct(pairs) && rows == Snapshot(|ledger.jobs|, pairs)
      modifies this
      ensures Valid()
      ensures ledger ==
                old(ledger).(jobs := old(ledger).jobs + [Job(tenant, Queued, |pairs|, 0, 0, 0)],
                             rows := old(ledger).rows + rows)
      ensures sends == old(sends) + seq(|rows|, i => 0) && Follows(old(ledger).rows, ledger.rows)
    {
      SnapshotSound(ledger, pairs, tenant);
      ledger := ledger.(jobs := ledger.jobs + [Job(tenant, Queued, |rows|, 0, 0, 0)], rows := ledger.rows + rows);
      sends := sends + seq(|rows|, i => 0);
      lost := lost + seq(|rows|, i => 0);
    }

    /** A job for the tenant's whole audience: every user in it exactly once, nobody blocked. */
    method CreateJob(tenant: int, users: seq<User>, filter: string) returns (job: nat)
      requires Valid()
      requires forall i, k :: 0 <= i < k < |users| ==> users[i].id != users[k].id
      modifies this
      ensures Valid() && job == |old(ledger).jobs| && Follows(old(ledger).rows, ledger.rows)
      ensures var pairs := Audience(users, filter);
              && ledger.jobs == old(ledger).jobs + [Job(tenant, Queued, |pairs|, 0, 0, 0)]
              && ledger.rows == old(ledger).rows + Snapshot(job, pairs)
    {
      job := |ledger.jobs|;
      var total := 0;
      var found := Audience(users, filter);
      var inserted: seq<Recipient> := [];
      var batch: seq<Recipient> := [];
      var i := 0;
      while i < |found|
        invariant 0 <= i <= |found| && total == |inserted| && |batch| < SNAPSHOT_CHUNK
        invariant inserted + batch == Snapshot(job, found[..i])
      {
        batch := batch + [Recipient(job, found[i].0, found[i].1, Pending)];
        assert inserted + batch == Snapshot(job, found[..i + 1]);
        if |batch| >= SNAPSHOT_CHUNK {
          inserted, total, batch := inserted + batch, total + |batch|, [];
        }
        i := i + 1;
      }
      if batch != [] {
        inserted, total := inserted + batch, total + |batch|;
      }
      assert found[..|found|] == found;
      AudienceDistinct(users, filter);
      InsertJob(tenant, inserted, found);
    }

    /** A job for named users: each reachable one exactly once. */
    method CreateJobForUsers(tenant: int, userRows: seq<(int, int)>) returns (job: nat)
      requires Valid()
      modifies this
      ensures Valid() && job == |old(ledger).jobs| && Follows(old(ledger).rows, ledger.rows)
      ensures var pairs := Deduped(userRows);
              && ledger.jobs == old(ledger).jobs + [Job(tenant, Queued, |pairs|, 0, 0, 0)]
              && ledger.rows == old(ledger).rows + Snapshot(job, pairs)
    {
      hide Count, Size, Sound;
      job := |ledger.jobs|;
      var seen: set<int> := {};
      var total := 0;
      var inserted: seq<Recipient> := [];
      var batch: seq<Recipient> := [];
      var i := 0;
      while i < |userRows|
        invariant 0 <= i <= |userRows| && total == |inserted| && |batch| < SNAPSHOT_CHUNK
        invariant unchanged(this)
        invariant seen == Users(Deduped(userRows[..i]))
        invariant inserted + batch == Snapshot(job, Deduped(userRows[..i]))
      {
        var (uid, tg) := userRows[i];
        ghost var before := Deduped(userRows[..i]);
        assert userRows[..i + 1][..i] == userRows[..i];
        i := i + 1;
        if uid in seen || tg == 0 {
          continue;
        }
        UsersSnoc(before, (uid, tg));
        seen := seen + {uid};
        batch := batch + [Recipient(job, uid, tg, Pending)];
        assert inserted + batch == Snapshot(job, before + [(uid, tg)]);
        if |batch| >= SNAPSHOT_CHUNK {
          inserted, total, batch := inserted + batch, total + |batch|, [];
        }
      }
      if batch != [] {
        inserted, total := inserted + batch, total + |batch|;
      }
      assert userRows[..|userRows|] == userRows;
      DedupedOnce(userRows);
      InsertJob(tenant, inserted, Deduped(userRows));
    }

    /** None exactly when no job anywhere is unfinished; otherwise the tenant of one with no older unfinished job. */
    method NextJobTenant() returns (tenant: Option<int>)
      ensures tenant == None <==> forall j :: j in ledger.jobs ==> !Unfinished(j)
      ensures tenant.Some? ==>
                exists i ::
                  && 0 <= i < |ledger.jobs| && Unfinished(ledger.jobs[i]) && ledger.jobs[i].tenant == tenant.value
                  && forall k :: 0 <= k < i ==> !Unfinished(ledger.jobs[k])
    {
      var job := Oldest(ledger.jobs, 0, None);
      tenant := if job == None then None else Some(ledger.jobs[job.value].tenant);
    }

    method SetStatus(job: nat, st: JobStatus)
      requires Valid() && job < |ledger.jobs| && st != Done
      modifies this`ledger
      ensures Valid() && ledger == old(ledger).(jobs := old(ledger).jobs[job := old(ledger).jobs[job].(status := st)])
    {
      assert JobSound(ledger, job);
      OneJobRowSound(ledger, job, ledger.jobs[job].(status := st));
      ledger := ledger.(jobs := ledger.jobs[job := ledger.jobs[job].(status := st)]);
    }

    /** The oldest unfinished job of the tenant, now running. */
    method ClaimNextJob(tenant: int) returns (job: Option<nat>)
      requires Valid()
      modifies this`ledger
      ensures Valid() && job == Oldest(old(ledger).jobs, 0, Some(tenant))
      ensures job == None ==> ledger == old(ledger)
      ensures job.Some? ==>
                var jobs := old(ledger).jobs;
                ledger == old(ledger).(jobs := jobs[job.value := jobs[job.value].(status := Running)])
    {
      hide Sound, Tally;
      job := Oldest(ledger.jobs, 0, Some(tenant));
      if job == None {
        return;
      }
      if ledger.jobs[job.value].status != Running {
        SetStatus(job.value, Running);
      }
    }

    method RefreshJobCounts(job: nat)
      requires Valid() && job < |ledger.jobs| && ledger.jobs[job].status != Done
      modifies this`ledger
      ensures Valid()
      ensures var jobs := old(ledger).jobs;
              ledger == old(ledger).(jobs := jobs[job := Counted(jobs[job], old(ledger).rows, job)])
    {
      assert JobSound(ledger, job);
      OneJobRowSound(ledger, job, Counted(ledger.jobs[job], ledger.rows, job));
      ledger := ledger.(jobs := ledger.jobs[job := Counted(ledger.jobs[job], ledger.rows, job)]);
    }

    /** A drained job is done when something was sent or nobody was asked, and failed otherwise. */
    method FinalizeJob(job: nat) returns (sent: nat, failed: nat, blocked: nat)
      requires Valid() && job < |ledger.jobs| && ledger.jobs[job].status != Done
               && Count(ledger.rows, job, Pending) == 0
      modifies this`ledger
      ensures Valid()
      ensures var jobs := old(ledger).jobs;
              ledger == old(ledger).(jobs := jobs[job := Finalized(jobs[job], old(ledger).rows, job)])
      ensures sent + failed + blocked == Size(old(ledger).rows, job)
    {
      RefreshJobCounts(job);
      var j := ledger.jobs[job];
      j := j.(status := if j.sent > 0 || j.total == 0 then Done else Aborted);
      OneJobRowSound(ledger, job, j);
      ledger := ledger.(jobs := ledger.jobs[job := j]);
      sent, failed, blocked := j.sent, j.failed, j.blocked;
    }

    method RetryFailed(job: nat) returns (requeued: nat)
      requires Valid()
      modifies this`ledger
      ensures Valid() && ledger == Retry(old(ledger), job) && requeued == Count(old(ledger).rows, job, Failed)
      ensures Follows(old(ledger).rows, ledger.rows) && |ledger.rows| == |old(ledger).rows|
      ensures requeued > 0 ==> forall i :: 0 <= i < |ledger.rows| ==>
                var r := old(ledger).rows[i];
                ledger.rows[i] == if r.job == job && r.status == Failed then r.(status := Pending) else r
      ensures requeued == 0 ==> ledger == old(ledger)
      ensures requeued > 0 ==>
                var jobs := old(ledger).jobs;
                job < |jobs| && ledger.jobs == jobs[job := jobs[job].(status := Queued)]
    {
      RetrySound(ledger, job);
      requeued := Count(ledger.rows, job, Failed);
      if requeued > 0 {
        var jobs := ledger.jobs[job := ledger.jobs[job].(status := Queued)];
        ledger := ledger.(rows := Requeued(ledger.rows, job), jobs := jobs);
      }
    }

    /** One recipient: a refused send is final, and only a back-off is tried once more. */
    method SendOne(i: nat, reply: Reply) returns (st: Status)
      requires i < |sends|
      modifies this`sends
      ensures st == Outcome(reply)
      ensures Bumped(old(sends), sends, i, Delivers(reply))
      ensures (st == Sent <==> Delivers(reply)) && (st == Blocked <==> reply == Forbidden) && st != Pending
    {
      match reply {
        case Accepted =>
          Deliver(i);
          st := Sent;
        case RetryAfter(second) =>
          if second == Accepted {
            Deliver(i);
            st := Sent;
          } else {
            st := Failed;
          }
        case Forbidden =>
          st := Blocked;
        case OtherError =>
          st := Failed;
      }
    }

    /** The messenger has taken a message for the recipient. */
    ghost method Deliver(i: nat)
      requires i < |sends|
      modifies this`sends
      ensures sends == old(sends)[i := old(sends)[i] + 1]
    {
      sends := sends[i := sends[i] + 1];
    }

    /**
     * One pass of the worker. Wherever it crashes, a sent row stays sent, at most
     * one message is lost track of, and the ledger is as before, as after the
     * pass, or claimed with a prefix of the page done; without a crash the pass is
     * exactly `Ended` on the oldest unfinished job of all tenants.
     */
    method ProcessOnce(live: bool, world: World, stop: Stop) returns (more: bool, crashed: bool)
      requires Valid()
      modifies this
      ensures Valid() && Follows(old(ledger).rows, ledger.rows)
      ensures more <==> Oldest(old(ledger).jobs, 0, None).Some?
      ensures !more ==> ledger == old(ledger) && !crashed
      ensures !crashed ==> lost == old(lost)
      ensures OneMoreAtMost(old(lost), lost)
      ensures more && !crashed ==> ledger == Ended(old(ledger), Oldest(old(ledger).jobs, 0, None).value, live, world)
      ensures more && !crashed && !live ==>
                var job := Oldest(old(ledger).jobs, 0, None).value;
                ledger == old(ledger).(jobs := old(ledger).jobs[job := old(ledger).jobs[job].(status := Aborted)])
      ensures crashed ==>
                var job := Oldest(old(ledger).jobs, 0, None).value;
                || ledger == old(ledger)
                || ledger == Ended(old(ledger), job, live, world)
                || PartlyDone(old(ledger), ledger, job, world)
    {
      assert OneMoreAtMost(lost, lost);
      hide Sound, Tally, Count, Size, PendingOf, Oldest, Pass, PartlyDone, OneMoreAtMost;
      more, crashed := false, false;
      var tid := NextJobTenant();
      OldestJob(ledger.jobs, tid);
      if tid == None {
        return;
      }
      more := true;
      if stop == BeforeClaim {
        return true, true;
      }
      OldestIsClaimed(ledger.jobs);
      var claimed := ClaimNextJob(tid.value);
      if claimed == None {
        return;
      }
      var job := claimed.value;
      ClaimedIsPartlyDone(old(ledger), ledger, job, world);
      if stop == AfterClaim {
        return true, true;
      }
      crashed := FinishPass(old(ledger), job, live, world, stop);
    }

    /** After the claim: fail the job, or send its next page, or end it. */
    method FinishPass(ghost before: Ledger, job: nat, live: bool, world: World, stop: Stop) returns (crashed: bool)
      requires Valid() && job < |before.jobs| && Unfinished(before.jobs[job])
      requires ledger == before.(jobs := before.jobs[job := before.jobs[job].(status := Running)])
      modifies this
      ensures Valid() && Follows(before.rows, ledger.rows)
      ensures !crashed ==> lost == old(lost) && ledger == Ended(before, job, live, world)
      ensures OneMoreAtMost(old(lost), lost)
      ensures crashed ==> ledger == Ended(before, job, live, world) || PartlyDone(before, ledger, job, world)
    {
      assert OneMoreAtMost(lost, lost);
      hide Sound, Tally, Count, Size, PendingOf, Pass, PartlyDone, OneMoreAtMost;
      ClaimedIsPartlyDone(before, ledger, job, world);
      if !live {
        if stop == BeforeEnd {
          return true;
        }
        SetStatus(job, Aborted);
        return stop == AfterEnd;
      }
      PageIs(ledger.rows, job);
      var page := Take(PendingOf(ledger.rows, job), PAGE_SIZE);
      if page == [] {
        if stop == BeforeEnd {
          return true;
        }
        var sent, failed, blocked := FinalizeJob(job);
        crashed := stop == AfterEnd;
      } else {
        crashed := DrainPage(job, page, world);
        PageIsPartlyDone(before, ledger, job, page, world);
      }
      PassIs(before, job, page, world);
    }

    /** Send to one recipient and commit the outcome, unless a crash comes between or after. */
    method AttemptOne(i: nat, attempt: Attempt) returns (crashed: bool)
      requires Valid() && i < |ledger.rows| && ledger.rows[i].status == Pending
      requires ledger.jobs[ledger.rows[i].job].status != Done
      modifies this
      ensures Valid() && Follows(old(ledger).rows, ledger.rows)
      ensures crashed <==> attempt.crash != NoCrash
      ensures Bumped(old(sends), sends, i, attempt.crash != BeforeSend && Delivers(attempt.reply))
      ensures Bumped(old(lost), lost, i, attempt.crash == BeforeCommit && Delivers(attempt.reply))
      ensures StoredUnlessCrashed(old(ledger), ledger, i, attempt)
    {
      hide Count, Size, Outcome;
      if attempt.crash == BeforeSend {
        return true;
      }
      var st := SendOne(i, attempt.reply);
      if attempt.crash == BeforeCommit {
        if st == Sent {
          lost := lost[i := lost[i] + 1];
        }
        return true;
      }
      var blocked := if st == Blocked then ledger.blockedUsers + {ledger.rows[i].user} else ledger.blockedUsers;
      RowCommitted(ledger, i, st, blocked);
      ledger := ledger.(rows := ledger.rows[i := ledger.rows[i].(status := st)], blockedUsers := blocked);
      crashed := attempt.crash == AfterCommit;
    }

    /** Send to a page, committing each outcome before the next send. */
    method DrainPage(job: nat, page: seq<nat>, world: World) returns (crashed: bool)
      requires Valid() && job < |ledger.jobs| && ledger.jobs[job].status == Running && PageOf(ledger.rows, page, job)
      modifies this
      ensures Valid() && Follows(old(ledger).rows, ledger.rows)
      ensures !crashed ==> lost == old(lost)
      ensures OneMoreAtMost(old(lost), lost)
      ensures crashed ==> PartOfPage(old(ledger), ledger, page, world)
      ensures !crashed ==>
                var rows := Attempted(old(ledger).rows, page, |page|, world);
                ledger == Ledger(old(ledger).jobs[job := Counted(old(ledger).jobs[job], rows, job)], rows,
                                 old(ledger).blockedUsers + BlockedBy(old(ledger).rows, page, |page|, world))
    {
      assert Follows(ledger.rows, ledger.rows) && OneMoreAtMost(lost, lost) && |lost| == |ledger.rows|;
      hide Sound, Tally, PageOf, Outcome, Delivers, Attempted, BlockedBy, Counted, StoredUnlessCrashed, Drained,
          Follows, Bumped, OneMoreAtMost, PartOfPage;
      var n := 0;
      DrainedNone(ledger, page, world);
      while n < |page|
        invariant 0 <= n <= |page| && Valid() && lost == old(lost) && Follows(old(ledger).rows, ledger.rows)
        invariant Drained(old(ledger), ledger, page, n, world)
      {
        ghost var before := ledger;
        NextOfPage(old(ledger), before, page, n, world, job);
        crashed := AttemptOne(page[n], world(n));
        FollowsTrans(old(ledger).rows, before.rows, ledger.rows);
        OneMore(old(lost), lost, page[n], world(n).crash == BeforeCommit && Delivers(world(n).reply));
        if crashed {
          CrashedAt(old(ledger), before, ledger, page, n, world);
          return;
        }
        DrainedNext(old(ledger), before, ledger, page, n, world);
        n := n + 1;
      }
      DrainedAll(old(ledger), ledger, page, world, job);
      if world(|page|).crash != NoCrash {
        return true;
      }
      RefreshJobCounts(job);
      crashed := false;
    }
  }

  /** Storing the outcome of a pending row, and a block, keeps the ledger sound. */
  lemma RowCommitted(l: Ledger, i: nat, st: Status, blocked: set<int>)
    requires Sound(l) && i < |l.rows| && l.jobs[l.rows[i].job].status != Done
    ensures Sound(l.(rows := l.rows[i := l.rows[i].(status := st)], blockedUsers := blocked))
  {
    OneRowSound(l, i, st);
    var now := l.(rows := l.rows[i := l.rows[i].(status := st)]);
    forall j | 0 <= j < |now.jobs| ensures JobSound(now.(blockedUsers := blocked), j) {
      assert JobSound(now, j);
    }
  }

  /** `Pass` does not care whether the job was already marked running. */
  lemma PassIs(l: Ledger, job: nat, page: seq<nat>, world: World)
    requires job < |l.jobs| && page == Take(PendingOf(l.rows, job), PAGE_SIZE) && PageOf(l.rows, page, job)
    ensures var claimed := l.(jobs := l.jobs[job := l.jobs[job].(status := Running)]);
            Pass(l, job, world) ==
            if page == [] then claimed.(jobs := claimed.jobs[job := Finalized(claimed.jobs[job], l.rows, job)])
            else
              var rows := Attempted(l.rows, page, |page|, world);
              Ledger(claimed.jobs[job := Counted(claimed.jobs[job], rows, job)], rows,
                     l.blockedUsers + BlockedBy(l.rows, page, |page|, world))
  {
  }
}
