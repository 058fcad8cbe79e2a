// How often a job is tried, and what its receiver sees, over whole runs.
module OutboundAttempts {
  import opened Basics
  import opened OutboundQueue
  import opened OutboundRuns

  function AttemptsOf(attempts: seq<Attempt>, id: JobId): nat {
    if attempts == [] then 0
    else AttemptsOf(attempts[..|attempts| - 1], id) + if attempts[|attempts| - 1].job == id then 1 else 0
  }

  // Messages of a job that the receiver showed: calls that reached it with an id it had not seen.
  function Deliveries(attempts: seq<Attempt>, id: JobId): nat {
    if attempts == [] then 0
    else
      var last := attempts[|attempts| - 1];
      Deliveries(attempts[..|attempts| - 1], id) + if last.job == id && last.delivered then 1 else 0
  }

  lemma CountsSnoc(attempts: seq<Attempt>, t: Attempt, id: JobId)
    ensures AttemptsOf(attempts + [t], id) == AttemptsOf(attempts, id) + if t.job == id then 1 else 0
    ensures Deliveries(attempts + [t], id) == Deliveries(attempts, id) + if t.job == id && t.delivered then 1 else 0
  {
    assert (attempts + [t])[..|attempts + [t]| - 1] == attempts;
  }

  lemma {:induction false} CountsOfUnknown(attempts: seq<Attempt>, id: JobId)
    requires forall t <- attempts :: t.job != id
    ensures AttemptsOf(attempts, id) == 0 == Deliveries(attempts, id)
  {
    if attempts != [] {
      CountsOfUnknown(attempts[..|attempts| - 1], id);
      assert attempts[|attempts| - 1] in attempts;
    }
  }

  // A job is tried at least once even if its limit is below one.
  function Bound(j: Job): nat {
    if AttemptLimit(j) < 1 then 1 else AttemptLimit(j)
  }

  ghost predicate AttemptsKnown(w: World) {
    forall t <- w.attempts :: t.job in w.jobs
  }

  ghost predicate JobSound(w: World, id: JobId)
    requires id in w.jobs
  {
    var j := w.jobs[id];
    && (j.leaseOwner.Some? ==> j.status in {Queued, Retry})
    && j.status != Processing
    && (j.status in {Queued, Retry} ==> j.attemptCount < Bound(j))
    && j.attemptCount <= Bound(j)
    && AttemptsOf(w.attempts, id) == j.attemptCount
  }

  ghost predicate JobsSound(w: World) {
    AttemptsKnown(w) && forall id <- w.jobs :: JobSound(w, id)
  }

  lemma StepKeepsJobsSound(w: World, e: Event)
    requires JobsSound(w)
    ensures JobsSound(Step(w, e))
  {
    if Enabled(w, e) {
      match e {
        case Enqueue(id, j) =>
          CountsOfUnknown(w.attempts, id);
        case Claim(_, _, _, _, ids) =>
          hide AttemptsOf;
          assert forall i :: 0 <= i < |ids| ==> Ready(w.jobs[ids[i]], e.now);
        case Process(_, id, s) =>
          ProcessKeepsJobsSound(w, id, s);
        case Cancel(id) =>
          hide AttemptsOf;
      }
    }
  }

  lemma ProcessKeepsJobsSound(w: World, id: JobId, s: Script)
    requires JobsSound(w) && id in w.jobs && w.jobs[id].leaseOwner.Some? && w.jobs[id].account in w.accounts
    ensures var j := w.jobs[id];
            JobsSound(AfterHandling(w, id, Handle(id, j, w.accounts[j.account], w.seen, s), s.endedAt))
  {
    hide Handle, AttemptsOf;
    var j := w.jobs[id];
    var a := w.accounts[j.account];
    var h := Handle(id, j, a, w.seen, s);
    HandledFacts(id, j, a, w.seen, s);
    var w' := AfterHandling(w, id, h, s.endedAt);
    assert JobSound(w, id);
    RestingStatus(id, j, a, w.seen, s);
    if h.attempt.Some? {
      forall k: JobId ensures AttemptsOf(w'.attempts, k) ==
                              AttemptsOf(w.attempts, k) + if h.attempt.value.job == k then 1 else 0
      {
        CountsSnoc(w.attempts, h.attempt.value, k);
      }
    } else {
      assert w'.attempts == w.attempts;
    }
    forall k | k in w'.jobs ensures JobSound(w', k) {
      if k != id {
        assert JobSound(w, k);
      }
    }
  }

  lemma RestingStatus(id: JobId, j: Job, a: Account, seen: set<RandomId>, s: Script)
    ensures Handle(id, j, a, seen, s).job.status != Processing
  {
  }

  lemma {:induction false} EveryRunIsJobsSound(accounts: map<AccountId, Account>, evs: seq<Event>)
    ensures JobsSound(Play(accounts, evs))
  {
    if evs != [] {
      hide JobsSound, Step;
      EveryRunIsJobsSound(accounts, evs[..|evs| - 1]);
      StepKeepsJobsSound(Play(accounts, evs[..|evs| - 1]), evs[|evs| - 1]);
    } else {
      hide Step;
    }
  }

  // A waiting job always has attempts left, and no job is ever tried more often than its limit.
  lemma AttemptsBounded(accounts: map<AccountId, Account>, evs: seq<Event>, id: JobId)
    requires id in Play(accounts, evs).jobs
    ensures var w := Play(accounts, evs);
            var j := w.jobs[id];
            && (j.status in {Queued, Retry} ==> j.attemptCount < Bound(j))
            && AttemptsOf(w.attempts, id) == j.attemptCount <= Bound(j)
            && (j.maxAttempts >= 0 ==> Bound(j) == AttemptLimit(j))
  {
    EveryRunIsJobsSound(accounts, evs);
    hide Play, AttemptsOf;
    assert JobSound(Play(accounts, evs), id);
  }

  // ---- Random ids ----

  ghost predicate IdsDiffer(jobs: map<JobId, Job>) {
    forall i, k :: i in jobs && k in jobs && i != k && jobs[i].randomId.Some? ==> jobs[i].randomId != jobs[k].randomId
  }

  ghost predicate CallsCarryTheId(w: World) {
    forall t <- w.attempts :: t.job in w.jobs && (t.call.Some? ==> t.call == w.jobs[t.job].randomId)
  }

  ghost predicate SeenIdsAreUsed(w: World) {
    forall r <- w.seen :: exists id :: id in w.jobs && w.jobs[id].randomId == Some(r)
  }

  predicate Delivered(w: World, id: JobId)
    requires id in w.jobs
  {
    w.jobs[id].randomId.Some? && w.jobs[id].randomId.value in w.seen
  }

  ghost predicate DeliverySound(w: World, id: JobId)
    requires id in w.jobs
  {
    && Deliveries(w.attempts, id) == (if Delivered(w, id) then 1 else 0)
    && (w.jobs[id].status == Sent ==> Delivered(w, id))
  }

  ghost predicate IdsSound(w: World) {
    && IdsDiffer(w.jobs) && CallsCarryTheId(w) && SeenIdsAreUsed(w)
    && forall id <- w.jobs :: DeliverySound(w, id)
  }

  lemma StepKeepsIdsSound(w: World, e: Event)
    requires JobsSound(w) && IdsSound(w)
    ensures IdsSound(Step(w, e))
  {
    if Enabled(w, e) {
      match e {
        case Enqueue(id, j) => EnqueueKeepsIds(w, id, j);
        case Claim(worker, _, seconds, now, ids) => ClaimKeepsIds(w, e);
        case Process(_, id, s) => ProcessKeepsIds(w, id, s);
        case Cancel(id) => CancelKeepsIds(w, id);
      }
    }
  }

  lemma EnqueueKeepsIds(w: World, id: JobId, j: Job)
    requires JobsSound(w) && IdsSound(w) && Enabled(w, Enqueue(id, j))
    ensures IdsSound(w.(jobs := w.jobs[id := j]))
  {
    var w' := w.(jobs := w.jobs[id := j]);
    CountsOfUnknown(w.attempts, id);
    hide Deliveries, AttemptsOf;
    forall k | k in w'.jobs ensures DeliverySound(w', k) {
      if k != id {
        assert DeliverySound(w, k);
      }
    }
    hide JobsSound, DeliverySound;
    forall r | r in w'.seen ensures exists k :: k in w'.jobs && w'.jobs[k].randomId == Some(r) {
      var k :| k in w.jobs && w.jobs[k].randomId == Some(r);
      assert w'.jobs[k].randomId == Some(r);
    }
  }

  // Changing other fields of jobs than random id and (to) the sent status keeps the ids in order.
  lemma SameIdsKeep(w: World, jobs: map<JobId, Job>)
    requires IdsSound(w) && jobs.Keys == w.jobs.Keys
    requires forall id <- jobs :: jobs[id].randomId == w.jobs[id].randomId &&
                                  (jobs[id].status == Sent ==> w.jobs[id].status == Sent)
    ensures IdsSound(w.(jobs := jobs))
  {
    hide Deliveries;
    var w' := w.(jobs := jobs);
    forall id | id in jobs ensures DeliverySound(w', id) {
      assert DeliverySound(w, id);
    }
    forall r | r in w'.seen ensures exists k :: k in w'.jobs && w'.jobs[k].randomId == Some(r) {
      var k :| k in w.jobs && w.jobs[k].randomId == Some(r);
      assert w'.jobs[k].randomId == Some(r);
    }
  }

  lemma SameFieldsKeep(w: World, w': World)
    requires IdsSound(w) && w'.jobs == w.jobs && w'.seen == w.seen && w'.attempts == w.attempts
    ensures IdsSound(w')
  {
    hide Deliveries;
    forall id | id in w'.jobs ensures DeliverySound(w', id) {
      assert DeliverySound(w, id);
    }
    forall r | r in w'.seen ensures exists k :: k in w'.jobs && w'.jobs[k].randomId == Some(r) {
      var k :| k in w.jobs && w.jobs[k].randomId == Some(r);
      assert w'.jobs[k].randomId == Some(r);
    }
  }

  lemma ClaimKeepsIds(w: World, e: Event)
    requires IdsSound(w) && e.Claim? && Enabled(w, e)
    ensures IdsSound(Step(w, e))
  {
    var jobs := LeaseAll(w.jobs, e.ids, e.worker, e.now + e.leaseSeconds);
    assert forall i :: 0 <= i < |e.ids| ==> e.ids[i] in w.jobs;
    hide IdsSound, EarliestReady;
    SameIdsKeep(w, jobs);
    SameFieldsKeep(w.(jobs := jobs), Step(w, e));
  }

  lemma CancelKeepsIds(w: World, id: JobId)
    requires IdsSound(w) && id in w.jobs && Enabled(w, Cancel(id))
    ensures IdsSound(Step(w, Cancel(id)))
  {
    var jobs := w.jobs[id := Released(Terminal(w.jobs[id], Cancelled))];
    hide IdsSound;
    SameIdsKeep(w, jobs);
    SameFieldsKeep(w.(jobs := jobs), Step(w, Cancel(id)));
  }

  lemma ProcessKeepsIds(w: World, id: JobId, s: Script)
    requires JobsSound(w) && IdsSound(w) && id in w.jobs && w.jobs[id].account in w.accounts
    requires w.jobs[id].leaseOwner.Some?
    requires w.jobs[id].randomId.None? ==> IdUnused(w, s.newId)
    requires s.callError.None? ==> s.reached
    ensures var j := w.jobs[id];
            IdsSound(AfterHandling(w, id, Handle(id, j, w.accounts[j.account], w.seen, s), s.endedAt))
  {
    var j := w.jobs[id];
    var a := w.accounts[j.account];
    var h := Handle(id, j, a, w.seen, s);
    var w' := AfterHandling(w, id, h, s.endedAt);
    HandledFacts(id, j, a, w.seen, s);
    assert JobSound(w, id);
    if h.attempt.None? {
      hide IdsSound, Handle, JobsSound;
      SameIdsKeep(w, w'.jobs);
      SameFieldsKeep(w.(jobs := w'.jobs), w');
    } else {
      AttemptFacts(id, j, a, w.seen, s);
      hide Handle, JobsSound;
      AttemptKeepsIds(w, id, s, h, w');
    }
  }

  // The facts of AttemptFacts, about the job as it stands in the world.
  ghost predicate FitsAttempt(w: World, id: JobId, s: Script, h: Handled)
    requires id in w.jobs
  {
    var r := IdFor(w.jobs[id], s);
    && h.attempt.Some? && h.attempt.value.job == id
    && (h.attempt.value.call.Some? ==> h.attempt.value.call == Some(r) && h.job.randomId == Some(r))
    && (h.job.randomId == w.jobs[id].randomId || h.job.randomId == Some(r))
    && (h.seen == w.seen || (h.attempt.value.call.Some? && h.seen == w.seen + {r}))
    && (h.attempt.value.delivered <==> r !in w.seen && r in h.seen)
    && (h.job.status == Sent ==> h.job.randomId == Some(r) && r in h.seen)
  }

  lemma AttemptKeepsIds(w: World, id: JobId, s: Script, h: Handled, w': World)
    requires IdsSound(w) && id in w.jobs && w.jobs[id].account in w.accounts
    requires w' == AfterHandling(w, id, h, s.endedAt) && FitsAttempt(w, id, s, h)
    requires w.jobs[id].randomId.None? ==> IdUnused(w, s.newId)
    ensures IdsSound(w')
  {
    forall k | k in w'.jobs ensures DeliverySound(w', k) {
      AttemptKeepsDelivery(w, id, s, h, w', k);
    }
    hide DeliverySound, IdsDiffer, CallsCarryTheId, SeenIdsAreUsed;
    AttemptKeepsDiffer(w, id, s, h, w');
    AttemptKeepsCalls(w, id, s, h, w');
    AttemptKeepsSeen(w, id, s, h, w');
  }

  lemma AttemptKeepsDiffer(w: World, id: JobId, s: Script, h: Handled, w': World)
    requires IdsDiffer(w.jobs) && id in w.jobs && w.jobs[id].account in w.accounts
    requires w' == AfterHandling(w, id, h, s.endedAt) && FitsAttempt(w, id, s, h)
    requires w.jobs[id].randomId.None? ==> IdUnused(w, s.newId)
    ensures IdsDiffer(w'.jobs)
  {
  }

  lemma AttemptKeepsCalls(w: World, id: JobId, s: Script, h: Handled, w': World)
    requires CallsCarryTheId(w) && id in w.jobs && w.jobs[id].account in w.accounts
    requires w' == AfterHandling(w, id, h, s.endedAt) && FitsAttempt(w, id, s, h)
    ensures CallsCarryTheId(w')
  {
  }

  lemma AttemptKeepsSeen(w: World, id: JobId, s: Script, h: Handled, w': World)
    requires SeenIdsAreUsed(w) && id in w.jobs && w.jobs[id].account in w.accounts
    requires w' == AfterHandling(w, id, h, s.endedAt) && FitsAttempt(w, id, s, h)
    ensures SeenIdsAreUsed(w')
  {
    forall q | q in w'.seen ensures exists k :: k in w'.jobs && w'.jobs[k].randomId == Some(q) {
      if q in w.seen {
        var k :| k in w.jobs && w.jobs[k].randomId == Some(q);
        assert w'.jobs[k].randomId == Some(q);
      } else {
        assert w'.jobs[id].randomId == Some(q);
      }
    }
  }

  lemma AttemptKeepsDelivery(w: World, id: JobId, s: Script, h: Handled, w': World, k: JobId)
    requires IdsSound(w) && id in w.jobs && w.jobs[id].account in w.accounts && k in w.jobs
    requires w' == AfterHandling(w, id, h, s.endedAt) && FitsAttempt(w, id, s, h)
    requires w.jobs[id].randomId.None? ==> IdUnused(w, s.newId)
    ensures DeliverySound(w', k)
  {
    CountsSnoc(w.attempts, h.attempt.value, k);
    assert DeliverySound(w, k);
    hide Deliveries;
  }

  lemma {:induction false} EveryRunIsIdsSound(accounts: map<AccountId, Account>, evs: seq<Event>)
    ensures IdsSound(Play(accounts, evs))
  {
    if evs != [] {
      hide JobsSound, IdsSound, Step;
      EveryRunIsIdsSound(accounts, evs[..|evs| - 1]);
      EveryRunIsJobsSound(accounts, evs[..|evs| - 1]);
      StepKeepsIdsSound(Play(accounts, evs[..|evs| - 1]), evs[|evs| - 1]);
    } else {
      hide Step;
    }
  }

  // All send calls of one job carry the same random id, and no other job's calls do.
  lemma CallsOfOneJobShareTheId(accounts: map<AccountId, Account>, evs: seq<Event>, t: Attempt, u: Attempt)
    requires var w := Play(accounts, evs); t in w.attempts && u in w.attempts
    requires t.call.Some? && u.call.Some?
    ensures t.call == u.call <==> t.job == u.job
  {
    EveryRunIsIdsSound(accounts, evs);
    hide Play, Deliveries;
  }

  // The receiver shows every job at most once, and a job marked sent exactly once.
  lemma DeliveredAtMostOnce(accounts: map<AccountId, Account>, evs: seq<Event>, id: JobId)
    requires id in Play(accounts, evs).jobs
    ensures var w := Play(accounts, evs);
            Deliveries(w.attempts, id) <= 1 && (w.jobs[id].status == Sent ==> Deliveries(w.attempts, id) == 1)
  {
    EveryRunIsIdsSound(accounts, evs);
    hide Play, Deliveries;
    assert DeliverySound(Play(accounts, evs), id);
  }
}
