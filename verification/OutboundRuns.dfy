// Runs of the outbound queue: jobs are enqueued, claimed by any worker, handled one at a time
// by the holder of their lease, and cancelled from outside, in any order.
module OutboundRuns {
  import opened Basics
  import opened OutboundQueue

  // Claims and releases, in the order they happened.
  datatype LeaseNote = Taken(worker: WorkerId, job: JobId, at: int, until: int) | Dropped(job: JobId)

  datatype World = World(
    jobs: map<JobId, Job>,
    accounts: map<AccountId, Account>,
    seen: set<RandomId>,          // random ids the receiver has accepted
    clock: int,
    attempts: seq<Attempt>,
    leases: seq<LeaseNote>)

  datatype Event =
    | Enqueue(id: JobId, job: Job)
    | Claim(worker: WorkerId, limit: nat, leaseSeconds: nat, now: int, ids: seq<JobId>)
    | Process(holder: WorkerId, id: JobId, script: Script)
    | Cancel(id: JobId)

  ghost predicate IdUnused(w: World, r: RandomId) {
    r !in w.seen && forall id <- w.jobs :: w.jobs[id].randomId != Some(r)
  }

  // Which events can happen: the clock does not run backwards, the database keeps its keys, a
  // fresh random id is not in use, an acknowledged call reached the receiver.
  ghost predicate Enabled(w: World, e: Event) {
    match e
    case Enqueue(id, j) =>
      && id !in w.jobs && j.account in w.accounts
      && j.status == Queued && j.attemptCount == 0 && j.leaseOwner.None? && j.leaseExpiresAt.None? && j.randomId.None?
    case Claim(_, limit, _, now, ids) => w.clock <= now && EarliestReady(w.jobs, now, limit, ids)
    case Process(holder, id, s) =>
      && id in w.jobs && w.jobs[id].leaseOwner == Some(holder) && w.jobs[id].account in w.accounts
      && w.clock <= s.checkedAt <= s.startedAt <= s.endedAt
      && (w.jobs[id].randomId.None? ==> IdUnused(w, s.newId))
      && (s.callError.None? ==> s.reached) && 0.8 <= s.factor <= 1.2
    case Cancel(id) => id in w.jobs && w.jobs[id].status in {Queued, Retry, Processing}
  }

  function Notes(ids: seq<JobId>, worker: WorkerId, now: int, until: int): seq<LeaseNote> {
    seq(|ids|, i requires 0 <= i < |ids| => Taken(worker, ids[i], now, until))
  }

  function AfterHandling(w: World, id: JobId, h: Handled, now: int): World
    requires id in w.jobs
  {
    World(w.jobs[id := h.job], w.accounts[w.jobs[id].account := h.account], h.seen, now,
          w.attempts + (if h.attempt.Some? then [h.attempt.value] else []),
          w.leases + [Dropped(id)])
  }

  // One event; an event that cannot happen changes nothing.
  ghost function Step(w: World, e: Event): World {
    if !Enabled(w, e) then w
    else
      match e
      case Enqueue(id, j) => w.(jobs := w.jobs[id := j])
      case Claim(worker, _, leaseSeconds, now, ids) =>
        w.(jobs := LeaseAll(w.jobs, ids, worker, now + leaseSeconds), clock := now,
           leases := w.leases + Notes(ids, worker, now, now + leaseSeconds))
      case Process(_, id, s) =>
        var j := w.jobs[id];
        AfterHandling(w, id, Handle(id, j, w.accounts[j.account], w.seen, s), s.endedAt)
      case Cancel(id) =>
        w.(jobs := w.jobs[id := Released(Terminal(w.jobs[id], Cancelled))], leases := w.leases + [Dropped(id)])
  }

  ghost function Play(accounts: map<AccountId, Account>, evs: seq<Event>): World {
    if evs == [] then World(map[], accounts, {}, 0, [], [])
    else Step(Play(accounts, evs[..|evs| - 1]), evs[|evs| - 1])
  }

  lemma PlaySnoc(accounts: map<AccountId, Account>, evs: seq<Event>, e: Event)
    ensures Play(accounts, evs + [e]) == Step(Play(accounts, evs), e)
  {
    assert (evs + [e])[..|evs + [e]| - 1] == evs;
  }

  // What handling a leased job can do to it.
  lemma HandledFacts(id: JobId, j: Job, a: Account, seen: set<RandomId>, s: Script)
    ensures var h := Handle(id, j, a, seen, s);
            && h.job.account == j.account && h.job.maxAttempts == j.maxAttempts
            && h.job.leaseOwner.None? && h.job.leaseExpiresAt.None?
            && h.job.attemptCount == j.attemptCount + (if h.attempt.Some? then 1 else 0)
            && (h.job.status in {Queued, Retry} ==> h.attempt.None? || CanRetry(h.job))
            && (h.attempt.None? ==> h.account == a && h.seen == seen)
            && (h.attempt.None? ==> h.job.randomId == j.randomId && h.job.status != Sent)
            && (h.attempt.Some? ==> h.attempt.value.job == id && h.attempt.value.account == j.account)
            && h.account.sendInterval == a.sendInterval
  {
  }

  // How one attempt touches ids and the receiver.
  lemma AttemptFacts(id: JobId, j: Job, a: Account, seen: set<RandomId>, s: Script)
    requires s.callError.None? ==> s.reached
    requires Handle(id, j, a, seen, s).attempt.Some?
    ensures var h := Handle(id, j, a, seen, s);
            var t := h.attempt.value;
            var r := IdFor(j, s);
            && (t.call.Some? ==> t.call == Some(r) && h.job.randomId == Some(r))
            && (h.job.randomId == j.randomId || h.job.randomId == Some(r))
            && (h.seen == seen || (t.call.Some? && h.seen == seen + {r}))
            && (t.delivered <==> r !in seen && r in h.seen)
            && (h.job.status == Sent ==> h.job.randomId == Some(r) && r in h.seen)
  {
  }

  // How one attempt touches the account's timing.
  lemma TimingFacts(id: JobId, j: Job, a: Account, seen: set<RandomId>, s: Script)
    requires s.checkedAt <= s.startedAt <= s.endedAt && Handle(id, j, a, seen, s).attempt.Some?
    ensures var h := Handle(id, j, a, seen, s);
            var t := h.attempt.value;
            && !AccountNotReady(a, t.at) && t.at == s.checkedAt && t.endedAt == s.endedAt
            && (if t.paced
                then h.account.nextAvailableAt.Some? && h.account.nextAvailableAt.value >= t.endedAt + a.sendInterval
                else h.account.nextAvailableAt == a.nextAvailableAt)
            && (if t.flooded.Some?
                then h.account.floodWaitUntil == t.flooded && t.flooded.value >= t.endedAt
                else h.account.floodWaitUntil == a.floodWaitUntil)
            && (h.job.status == Sent ==> t.paced)
  {
  }
}
