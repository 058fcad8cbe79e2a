// Who holds which job: any number of workers, interleaving claims.
module OutboundLeases {
  import opened Basics
  import opened OutboundQueue
  import opened OutboundRuns

  // The claim of a job that nothing has released or taken over since.
  function CurrentClaim(leases: seq<LeaseNote>, job: JobId): (c: Option<LeaseNote>)
    ensures c.Some? ==> c.value.Taken? && c.value in leases && c.value.job == job
  {
    if leases == [] then None
    else
      var last := leases[|leases| - 1];
      if last.job != job then CurrentClaim(leases[..|leases| - 1], job)
      else if last.Taken? then Some(last) else None
  }

  predicate Free(leases: seq<LeaseNote>, job: JobId, now: int) {
    CurrentClaim(leases, job).Some? ==> CurrentClaim(leases, job).value.until <= now
  }

  ghost predicate NotAfter(leases: seq<LeaseNote>, now: int) {
    forall n <- leases :: n.Taken? ==> n.at <= now
  }

  // Every claim was made on a job that was free at that time, and times only grow.
  ghost predicate WellTaken(leases: seq<LeaseNote>) {
    leases == [] ||
    var before, last := leases[..|leases| - 1], leases[|leases| - 1];
    WellTaken(before) && (last.Taken? ==> Free(before, last.job, last.at) && NotAfter(before, last.at))
  }

  // The row of a job carries exactly its current claim.
  predicate RowMatches(j: Job, claim: Option<LeaseNote>)
    requires claim.Some? ==> claim.value.Taken?
  {
    match claim
    case None => j.leaseOwner.None? && j.leaseExpiresAt.None?
    case Some(c) => j.leaseOwner == Some(c.worker) && j.leaseExpiresAt == Some(c.until)
  }

  ghost predicate RowsMatch(jobs: map<JobId, Job>, leases: seq<LeaseNote>) {
    forall id <- jobs :: RowMatches(jobs[id], CurrentClaim(leases, id))
  }

  ghost predicate LeasesSound(w: World) {
    && RowsMatch(w.jobs, w.leases)
    && WellTaken(w.leases)
    && NotAfter(w.leases, w.clock)
    && (forall n <- w.leases :: n.job in w.jobs)
  }

  lemma ClaimSnoc(leases: seq<LeaseNote>, n: LeaseNote, job: JobId)
    ensures CurrentClaim(leases + [n], job) ==
            if n.job != job then CurrentClaim(leases, job) else if n.Taken? then Some(n) else None
    ensures WellTaken(leases + [n]) <==>
            WellTaken(leases) && (n.Taken? ==> Free(leases, n.job, n.at) && NotAfter(leases, n.at))
  {
    assert (leases + [n])[..|leases + [n]| - 1] == leases;
  }

  lemma NotesSnoc(ids: seq<JobId>, worker: WorkerId, now: int, until: int)
    requires ids != []
    ensures Notes(ids, worker, now, until) ==
            Notes(ids[..|ids| - 1], worker, now, until) + [Taken(worker, ids[|ids| - 1], now, until)]
  {
  }

  // What the claims in `ids` leave as the current claim of each job.
  lemma {:induction false} CurrentAfterBatch(leases: seq<LeaseNote>, ids: seq<JobId>, worker: WorkerId,
                                             now: int, until: int, job: JobId)
    ensures CurrentClaim(leases + Notes(ids, worker, now, until), job) ==
            if job in ids then Some(Taken(worker, job, now, until)) else CurrentClaim(leases, job)
  {
    hide CurrentClaim;
    if ids == [] {
      assert leases + Notes(ids, worker, now, until) == leases;
    } else {
      var n := |ids| - 1;
      var before := leases + Notes(ids[..n], worker, now, until);
      var last := Taken(worker, ids[n], now, until);
      NotesSnoc(ids, worker, now, until);
      assert leases + Notes(ids, worker, now, until) == before + [last];
      assert ids == ids[..n] + [ids[n]];
      hide Notes;
      CurrentAfterBatch(leases, ids[..n], worker, now, until, job);
      ClaimSnoc(before, last, job);
    }
  }

  lemma NotAfterBatch(leases: seq<LeaseNote>, ids: seq<JobId>, worker: WorkerId, now: int, until: int)
    requires NotAfter(leases, now)
    ensures NotAfter(leases + Notes(ids, worker, now, until), now)
  {
    forall n | n in leases + Notes(ids, worker, now, until) ensures n.Taken? ==> n.at <= now {
      if n !in leases {
        assert n in Notes(ids, worker, now, until);
      }
    }
  }

  // Taking a batch of distinct free jobs, one note at a time.
  lemma {:induction false} BatchIsWellTaken(leases: seq<LeaseNote>, ids: seq<JobId>, worker: WorkerId, now: int,
                                            until: int)
    requires WellTaken(leases) && NotAfter(leases, now)
    requires forall i :: 0 <= i < |ids| ==> Free(leases, ids[i], now)
    requires forall i, k :: 0 <= i < k < |ids| ==> ids[i] != ids[k]
    ensures WellTaken(leases + Notes(ids, worker, now, until))
  {
    hide WellTaken, CurrentClaim, NotAfter;
    if ids == [] {
      assert leases + Notes(ids, worker, now, until) == leases;
    } else {
      var n := |ids| - 1;
      var before := leases + Notes(ids[..n], worker, now, until);
      var last := Taken(worker, ids[n], now, until);
      NotesSnoc(ids, worker, now, until);
      assert leases + Notes(ids, worker, now, until) == before + [last];
      hide Notes;
      BatchIsWellTaken(leases, ids[..n], worker, now, until);
      NotAfterBatch(leases, ids[..n], worker, now, until);
      assert Free(before, ids[n], now) by {
        assert ids[n] !in ids[..n];
        assert Free(leases, ids[n], now);
        CurrentAfterBatch(leases, ids[..n], worker, now, until, ids[n]);
      }
      hide Free;
      ClaimSnoc(before, last, ids[n]);
    }
  }

  lemma {:induction false} ClaimOfUnknown(leases: seq<LeaseNote>, job: JobId)
    requires forall n <- leases :: n.job != job
    ensures CurrentClaim(leases, job).None?
  {
    if leases != [] {
      assert leases[|leases| - 1] in leases;
      ClaimOfUnknown(leases[..|leases| - 1], job);
    }
  }

  lemma StepKeepsLeasesSound(w: World, e: Event)
    requires LeasesSound(w)
    ensures LeasesSound(Step(w, e))
  {
    if Enabled(w, e) {
      match e {
        case Enqueue(id, j) =>
          ClaimOfUnknown(w.leases, id);
          hide CurrentClaim, WellTaken;
        case Claim(worker, _, seconds, now, ids) =>
          ClaimKeepsLeasesSound(w, e);
        case Process(_, id, s) =>
          var j := w.jobs[id];
          HandledFacts(id, j, w.accounts[j.account], w.seen, s);
          hide CurrentClaim, WellTaken, Handle;
          DropKeepsLeasesSound(w, id, Handle(id, j, w.accounts[j.account], w.seen, s).job, s.endedAt);
        case Cancel(id) =>
          hide CurrentClaim, WellTaken;
          DropKeepsLeasesSound(w, id, Released(Terminal(w.jobs[id], Cancelled)), w.clock);
      }
    }
  }

  // A ready job is free: its row shows the current claim.
  lemma ReadyIsFree(w: World, id: JobId, now: int)
    requires RowsMatch(w.jobs, w.leases) && id in w.jobs && Ready(w.jobs[id], now)
    ensures Free(w.leases, id, now)
  {
    hide CurrentClaim;
    assert RowMatches(w.jobs[id], CurrentClaim(w.leases, id));
  }

  lemma ClaimKeepsRows(jobs: map<JobId, Job>, leases: seq<LeaseNote>, ids: seq<JobId>, worker: WorkerId, now: int,
                       until: int)
    requires RowsMatch(jobs, leases)
    ensures RowsMatch(LeaseAll(jobs, ids, worker, until), leases + Notes(ids, worker, now, until))
  {
    hide CurrentClaim, Notes;
    forall id | id in LeaseAll(jobs, ids, worker, until)
      ensures RowMatches(LeaseAll(jobs, ids, worker, until)[id],
              CurrentClaim(leases + Notes(ids, worker, now, until), id))
    {
      assert RowMatches(jobs[id], CurrentClaim(leases, id));
      CurrentAfterBatch(leases, ids, worker, now, until, id);
    }
  }

  lemma ClaimKeepsLeasesSound(w: World, e: Event)
    requires LeasesSound(w) && e.Claim? && Enabled(w, e)
    ensures LeasesSound(Step(w, e))
  {
    hide CurrentClaim, WellTaken, Ready, Before, Free, RowsMatch, NotAfter;
    var ids, until := e.ids, e.now + e.leaseSeconds;
    forall i | 0 <= i < |ids| ensures Free(w.leases, ids[i], e.now) {
      ReadyIsFree(w, ids[i], e.now);
    }
    forall n | n in w.leases + Notes(ids, e.worker, e.now, until)
      ensures n.job in LeaseAll(w.jobs, ids, e.worker, until)
    {
      if n !in w.leases {
        assert n in Notes(ids, e.worker, e.now, until);
      }
    }
    assert NotAfter(w.leases, e.now) by { LaterStill(w.leases, w.clock, e.now); }
    hide Notes, LeaseAll;
    ClaimKeepsRows(w.jobs, w.leases, ids, e.worker, e.now, until);
    BatchIsWellTaken(w.leases, ids, e.worker, e.now, until);
    NotAfterBatch(w.leases, ids, e.worker, e.now, until);
  }

  lemma LaterStill(leases: seq<LeaseNote>, now: int, later: int)
    requires NotAfter(leases, now) && now <= later
    ensures NotAfter(leases, later)
  {
  }

  lemma DropKeepsLeasesSound(w: World, id: JobId, j: Job, now: int)
    requires LeasesSound(w) && id in w.jobs && j.leaseOwner.None? && j.leaseExpiresAt.None? && w.clock <= now
    ensures var leases := w.leases + [Dropped(id)];
            && RowsMatch(w.jobs[id := j], leases) && WellTaken(leases) && NotAfter(leases, now)
            && (forall n <- leases :: n.job in w.jobs[id := j])
  {
    forall k | k in w.jobs[id := j] ensures RowMatches(w.jobs[id := j][k], CurrentClaim(w.leases + [Dropped(id)], k)) {
      ClaimSnoc(w.leases, Dropped(id), k);
      if k != id {
        assert RowMatches(w.jobs[k], CurrentClaim(w.leases, k));
      }
    }
    ClaimSnoc(w.leases, Dropped(id), id);
  }

  lemma {:induction false} EveryRunIsLeasesSound(accounts: map<AccountId, Account>, evs: seq<Event>)
    ensures LeasesSound(Play(accounts, evs))
  {
    if evs != [] {
      hide LeasesSound, Step;
      EveryRunIsLeasesSound(accounts, evs[..|evs| - 1]);
      StepKeepsLeasesSound(Play(accounts, evs[..|evs| - 1]), evs[|evs| - 1]);
    }
  }

  // Claim number i of the job has not been released since it was made.
  predicate Unreleased(leases: seq<LeaseNote>, i: nat, job: JobId) {
    && i < |leases| && leases[i].Taken? && leases[i].job == job
    && forall k :: i < k < |leases| ==> leases[k] != Dropped(job)
  }

  // An unreleased claim is the current one, or had run out when a later one was made.
  lemma {:induction false} UnreleasedIsCurrentOrOver(leases: seq<LeaseNote>, i: nat, job: JobId)
    requires WellTaken(leases) && Unreleased(leases, i, job)
    ensures CurrentClaim(leases, job).Some?
    ensures var c := CurrentClaim(leases, job).value;
            c == leases[i] || (leases[i].until <= c.at && leases[i].at <= c.at)
  {
    var n := |leases| - 1;
    var before, last := leases[..n], leases[n];
    if i < n {
      assert Unreleased(before, i, job);
      UnreleasedIsCurrentOrOver(before, i, job);
      if last.job == job {
        assert leases[n] != Dropped(job);
        assert last.Taken? && CurrentClaim(leases, job) == Some(last);
        assert before[i] in before;
      }
    }
  }

  lemma {:induction false} WellTakenPrefix(leases: seq<LeaseNote>, n: nat)
    requires WellTaken(leases) && n <= |leases|
    ensures WellTaken(leases[..n])
  {
    if n < |leases| {
      WellTakenPrefix(leases[..|leases| - 1], n);
      assert leases[..|leases| - 1][..n] == leases[..n];
    } else {
      assert leases[..n] == leases;
    }
  }

  lemma LaterClaimFollows(leases: seq<LeaseNote>, i: nat, k: nat, job: JobId)
    requires WellTaken(leases) && i < k && Unreleased(leases, i, job) && Unreleased(leases, k, job)
    ensures leases[i].until <= leases[k].at
  {
    WellTakenPrefix(leases, k + 1);
    var before := leases[..k];
    assert leases[..k + 1][..k] == before;
    WellTakenPrefix(leases, k);
    assert Unreleased(before, i, job);
    UnreleasedIsCurrentOrOver(before, i, job);
  }

  // In every run a job is claimed again without a release only once the earlier claim has run out.
  lemma TakenOverWhenOver(accounts: map<AccountId, Account>, evs: seq<Event>, i: nat, k: nat, job: JobId)
    requires var leases := Play(accounts, evs).leases;
             i < k && Unreleased(leases, i, job) && Unreleased(leases, k, job)
    ensures var leases := Play(accounts, evs).leases; leases[i].until <= leases[k].at
  {
    EveryRunIsLeasesSound(accounts, evs);
    hide Play;
    LaterClaimFollows(Play(accounts, evs).leases, i, k, job);
  }

  // Leases that have not expired never overlap: whatever the workers do, and in whatever order,
  // at most one claim of a job is both unreleased and unexpired, and the job's row names its holder.
  lemma UnexpiredLeasesDisjoint(accounts: map<AccountId, Account>, evs: seq<Event>, i: nat, k: nat, job: JobId,
                                now: int)
    requires var w := Play(accounts, evs);
             now >= w.clock && Unreleased(w.leases, i, job) && Unreleased(w.leases, k, job) &&
             w.leases[i].until > now && w.leases[k].until > now
    ensures i == k
    ensures var w := Play(accounts, evs);
            job in w.jobs && w.jobs[job].leaseOwner == Some(w.leases[i].worker) &&
            w.jobs[job].leaseExpiresAt == Some(w.leases[i].until)
  {
    EveryRunIsLeasesSound(accounts, evs);
    var w := Play(accounts, evs);
    hide Step, Play, Free;
    assert w.leases[i] in w.leases && w.leases[k] in w.leases;
    UnreleasedIsCurrentOrOver(w.leases, i, job);
    assert RowMatches(w.jobs[job], CurrentClaim(w.leases, job));
    if i < k {
      LaterClaimFollows(w.leases, i, k, job);
    } else if k < i {
      LaterClaimFollows(w.leases, k, i, job);
    }
  }
}
