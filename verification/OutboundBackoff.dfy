// Backoff after retryable failures: how long it is, and that it is waited for.
module OutboundBackoff {
  import opened Basics
  import opened OutboundQueue
  import opened OutboundRuns
  import opened OutboundAttempts

  // One backoff: between 0.8 and 1.2 times 10, 20, 40, ... seconds, and at most 1080.
  lemma BackoffRange(attempt: nat, factor: real)
    requires attempt >= 1 && 0.8 <= factor <= 1.2
    ensures var b := BackoffSeconds(attempt, factor);
            8 <= b <= 12 * Pow2(attempt - 1) && b <= 1080
  {
    hide Pow2;
    var base := BackoffBase(attempt);
    PowPositive(attempt - 1);
    assert 10 <= base <= 10 * Pow2(attempt - 1) && base <= 900;
    hide BackoffBase;
    FloorScaled(base, factor);
  }

  lemma FloorScaled(base: nat, factor: real)
    requires 10 <= base && 0.8 <= factor <= 1.2
    ensures var b := (base as real * factor).Floor; 8 <= b && 10 * b <= 12 * base
  {
    var x := Scaled(base as real, factor);
    FloorWithin(base, x);
  }

  lemma FloorWithin(base: nat, x: real)
    requires 10 <= base && 0.8 * base as real <= x <= 1.2 * base as real
    ensures 8 <= x.Floor && 10 * x.Floor <= 12 * base
  {
  }

  lemma Scaled(x: real, factor: real) returns (y: real)
    requires x >= 0.0 && 0.8 <= factor <= 1.2
    ensures y == x * factor && 0.8 * x <= y <= 1.2 * x
  {
    y := x * factor;
    assert x * (factor - 0.8) >= 0.0 && x * (1.2 - factor) >= 0.0;
  }

  lemma {:induction false} PowPositive(n: nat)
    ensures Pow2(n) >= 1
  {
    if n > 0 {
      PowPositive(n - 1);
    }
  }

  // The seconds a job has been told to back off so far.
  function BackedOff(attempts: seq<Attempt>, id: JobId): int {
    if attempts == [] then 0
    else
      var last := attempts[|attempts| - 1];
      BackedOff(attempts[..|attempts| - 1], id) +
        if last.job == id && last.backoff.Some? then last.backoff.value else 0
  }

  predicate Within(total: int, n: nat) {
    0 <= total <= 12 * (Pow2(n) - 1) && total <= 1080 * n
  }

  ghost predicate BackoffsBounded(w: World) {
    forall id: JobId :: Within(BackedOff(w.attempts, id), AttemptsOf(w.attempts, id))
  }

  lemma BackedOffSnoc(attempts: seq<Attempt>, t: Attempt, id: JobId)
    ensures BackedOff(attempts + [t], id) ==
            BackedOff(attempts, id) + if t.job == id && t.backoff.Some? then t.backoff.value else 0
  {
    assert (attempts + [t])[..|attempts + [t]| - 1] == attempts;
  }

  // The backoff an attempt notes is the one for its number, and the job's row waits for it.
  lemma BackoffNoted(id: JobId, j: Job, a: Account, seen: set<RandomId>, s: Script)
    requires 0.8 <= s.factor <= 1.2 && Handle(id, j, a, seen, s).attempt.Some?
    ensures var h := Handle(id, j, a, seen, s);
            var t := h.attempt.value;
            && t.at == s.checkedAt && t.endedAt == s.endedAt
            && (t.backoff.Some? ==>
                  && 0 <= t.backoff.value <= 12 * Pow2(j.attemptCount) && t.backoff.value <= 1080
                  && h.job.status == Retry && h.job.nextAttemptAt == Some(t.endedAt + t.backoff.value))
  {
    BackoffRange(j.attemptCount + 1, s.factor);
    hide BackoffSeconds, Pow2;
  }

  lemma OneMoreWithin(total: int, n: nat, b: int)
    requires Within(total, n) && 0 <= b <= 12 * Pow2(n) && b <= 1080
    ensures Within(total + b, n + 1)
  {
  }

  lemma StillWithin(total: int, n: nat)
    requires Within(total, n)
    ensures Within(total, n + 1)
  {
    PowPositive(n);
  }

  // A new attempt of job `id`, the next by number, keeps every job's total within its bound.
  lemma AttemptKeepsWithin(attempts: seq<Attempt>, t: Attempt, k: JobId)
    requires Within(BackedOff(attempts, k), AttemptsOf(attempts, k))
    requires t.backoff.Some? ==>
               0 <= t.backoff.value <= 12 * Pow2(AttemptsOf(attempts, t.job)) && t.backoff.value <= 1080
    ensures Within(BackedOff(attempts + [t], k), AttemptsOf(attempts + [t], k))
  {
    CountsSnoc(attempts, t, k);
    BackedOffSnoc(attempts, t, k);
    hide BackedOff, AttemptsOf, Pow2, Within;
    if k == t.job {
      if t.backoff.Some? {
        OneMoreWithin(BackedOff(attempts, k), AttemptsOf(attempts, k), t.backoff.value);
      } else {
        StillWithin(BackedOff(attempts, k), AttemptsOf(attempts, k));
      }
    }
  }

  lemma StepKeepsBackoffsBounded(w: World, e: Event)
    requires JobsSound(w) && BackoffsBounded(w)
    ensures BackoffsBounded(Step(w, e))
  {
    hide BackedOff, AttemptsOf, Pow2, Within;
    if Enabled(w, e) && e.Process? {
      var id, s := e.id, e.script;
      var j := w.jobs[id];
      var h := Handle(id, j, w.accounts[j.account], w.seen, s);
      HandledFacts(id, j, w.accounts[j.account], w.seen, s);
      assert Step(w, e).attempts == w.attempts + (if h.attempt.Some? then [h.attempt.value] else []);
      if h.attempt.Some? {
        assert JobSound(w, id);
        BackoffNoted(id, j, w.accounts[j.account], w.seen, s);
        hide Handle, Step, Enabled, JobsSound;
        forall k: JobId ensures Within(BackedOff(Step(w, e).attempts, k), AttemptsOf(Step(w, e).attempts, k)) {
          AttemptKeepsWithin(w.attempts, h.attempt.value, k);
        }
      } else {
        assert Step(w, e).attempts == w.attempts;
      }
    } else {
      assert Step(w, e).attempts == w.attempts;
    }
  }

  lemma {:induction false} EveryRunIsBackoffsBounded(accounts: map<AccountId, Account>, evs: seq<Event>)
    ensures BackoffsBounded(Play(accounts, evs))
  {
    if evs != [] {
      hide JobsSound, BackoffsBounded, Step;
      EveryRunIsBackoffsBounded(accounts, evs[..|evs| - 1]);
      EveryRunIsJobsSound(accounts, evs[..|evs| - 1]);
      StepKeepsBackoffsBounded(Play(accounts, evs[..|evs| - 1]), evs[|evs| - 1]);
    }
  }

  // Whatever the jitter, a job tried n times has been told to back off at most 12 * (2^n - 1)
  // seconds in all, and at most 1080 * n.
  lemma BackoffIsBounded(accounts: map<AccountId, Account>, evs: seq<Event>, id: JobId)
    requires id in Play(accounts, evs).jobs
    ensures var w := Play(accounts, evs);
            var n := w.jobs[id].attemptCount;
            BackedOff(w.attempts, id) <= 12 * (Pow2(n) - 1) && BackedOff(w.attempts, id) <= 1080 * n
  {
    EveryRunIsBackoffsBounded(accounts, evs);
    AttemptsBounded(accounts, evs, id);
    hide Play;
    assert Within(BackedOff(Play(accounts, evs).attempts, id), AttemptsOf(Play(accounts, evs).attempts, id));
  }

  // ---- The backoff is waited for ----

  predicate Elapsed(t: Attempt, now: int) {
    t.backoff.Some? ==> now >= t.endedAt + t.backoff.value
  }

  // The job of an attempt that backed off cannot be claimed before the backoff is over.
  predicate Pending(j: Job, t: Attempt) {
    t.backoff.Some? ==>
      && j.leaseOwner.None?
      && (j.status in {Queued, Retry} ==>
            j.status == Retry && j.nextAttemptAt.Some? && j.nextAttemptAt.value >= t.endedAt + t.backoff.value)
  }

  ghost predicate BackoffsPending(w: World) {
    forall t <- w.attempts :: t.job in w.jobs && (Elapsed(t, w.clock) || Pending(w.jobs[t.job], t))
  }

  ghost predicate BackoffsWaited(w: World) {
    forall i, k :: 0 <= i < k < |w.attempts| && w.attempts[i].job == w.attempts[k].job ==>
      Elapsed(w.attempts[i], w.attempts[k].at)
  }

  lemma ClaimKeepsPending(w: World, e: Event)
    requires BackoffsPending(w) && e.Claim? && Enabled(w, e)
    ensures BackoffsPending(Step(w, e))
  {
    var w' := Step(w, e);
    forall t | t in w'.attempts ensures t.job in w'.jobs && (Elapsed(t, w'.clock) || Pending(w'.jobs[t.job], t)) {
      assert Elapsed(t, w.clock) || Pending(w.jobs[t.job], t);
      if t.job in e.ids {
        assert Ready(w.jobs[t.job], e.now);
      }
    }
  }

  lemma ProcessKeepsPending(w: World, holder: WorkerId, id: JobId, s: Script)
    requires BackoffsPending(w) && BackoffsWaited(w) && Enabled(w, Process(holder, id, s))
    ensures BackoffsPending(Step(w, Process(holder, id, s)))
    ensures BackoffsWaited(Step(w, Process(holder, id, s)))
  {
    var j := w.jobs[id];
    var h := Handle(id, j, w.accounts[j.account], w.seen, s);
    var w' := Step(w, Process(holder, id, s));
    HandledFacts(id, j, w.accounts[j.account], w.seen, s);
    assert w.clock <= s.checkedAt <= s.endedAt;
    assert w' == AfterHandling(w, id, h, s.endedAt);
    if h.attempt.Some? {
      BackoffNoted(id, j, w.accounts[j.account], w.seen, s);
    }
    hide Handle, Enabled, Step;
    forall t | t in w'.attempts ensures t.job in w'.jobs && (Elapsed(t, w'.clock) || Pending(w'.jobs[t.job], t)) {
      if t in w.attempts {
        assert Elapsed(t, w.clock) || Pending(w.jobs[t.job], t);
      } else {
        assert t == h.attempt.value;
      }
    }
    forall i, k | 0 <= i < k < |w'.attempts| && w'.attempts[i].job == w'.attempts[k].job
      ensures Elapsed(w'.attempts[i], w'.attempts[k].at)
    {
      if k == |w.attempts| {
        assert w.attempts[i] in w.attempts;
        assert Elapsed(w.attempts[i], w.clock) || Pending(w.jobs[id], w.attempts[i]);
      } else {
        assert Elapsed(w.attempts[i], w.attempts[k].at);
      }
    }
  }

  lemma StepKeepsBackoffsWaited(w: World, e: Event)
    requires BackoffsPending(w) && BackoffsWaited(w)
    ensures BackoffsPending(Step(w, e)) && BackoffsWaited(Step(w, e))
  {
    if Enabled(w, e) {
      match e {
        case Claim(_, _, _, _, _) => ClaimKeepsPending(w, e);
        case Process(holder, id, s) => ProcessKeepsPending(w, holder, id, s);
        case Enqueue(_, _) =>
        case Cancel(_) =>
      }
    }
  }

  lemma {:induction false} EveryRunWaits(accounts: map<AccountId, Account>, evs: seq<Event>)
    ensures BackoffsPending(Play(accounts, evs)) && BackoffsWaited(Play(accounts, evs))
  {
    if evs != [] {
      hide BackoffsPending, BackoffsWaited, Step;
      EveryRunWaits(accounts, evs[..|evs| - 1]);
      StepKeepsBackoffsWaited(Play(accounts, evs[..|evs| - 1]), evs[|evs| - 1]);
    }
  }

  // No later attempt of a job starts before the backoff noted by an earlier one is over.
  lemma BackoffIsWaitedFor(accounts: map<AccountId, Account>, evs: seq<Event>, i: nat, k: nat)
    requires var ts := Play(accounts, evs).attempts;
             i < k < |ts| && ts[i].job == ts[k].job && ts[i].backoff.Some?
    ensures var ts := Play(accounts, evs).attempts;
            ts[k].at >= ts[i].endedAt + ts[i].backoff.value
  {
    EveryRunWaits(accounts, evs);
    hide Play;
    assert Elapsed(Play(accounts, evs).attempts[i], Play(accounts, evs).attempts[k].at);
  }
}
