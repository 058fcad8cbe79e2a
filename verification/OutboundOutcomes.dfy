// What becomes of an outbound job: how each way of handling it ends, over whole runs, stated on the
// rows and on what happened while the job was handled.
module OutboundOutcomes {
  import opened Basics
  import opened OutboundQueue
  import opened OutboundRuns
  import opened OutboundAttempts
  import opened OutboundBackoff

  // The exception that ended the attempt, if one did: the first on the way to the end of the call.
  function RaisedIn(s: Script): Option<Error> {
    if s.beforeId.Some? then s.beforeId else if s.beforeSend.Some? then s.beforeSend else s.callError
  }

  // The account waits out a flood wait, or the time to its next send.
  predicate HeldBack(a: Account, now: int) {
    || (a.floodWaitUntil.Some? && now < a.floodWaitUntil.value)
    || (a.nextAvailableAt.Some? && now < a.nextAvailableAt.value)
  }

  // The attempt about to be made is the last one a job may have: its limit is max_attempts, or 5 for 0.
  predicate LastTry(j: Job) {
    j.attemptCount + 1 >= if j.maxAttempts == 0 then 5 else j.maxAttempts
  }

  predicate MayRecover(e: Option<Error>) {
    e.Some? && (e.value.FloodWait? || e.value == Retryable)
  }

  // The status a handled job ends in.
  function EndOf(j: Job, a: Account, s: Script): Status {
    if !s.accountFound then Failed
    else if HeldBack(a, s.checkedAt) then Retry
    else if !s.allowed then Blocked
    else match RaisedIn(s)
      case None => if s.bookkeeping == Clean then Sent else Failed
      case Some(Stale) => Cancelled
      case Some(Unexpected) => Failed
      case _ => if LastTry(j) then DeadLetter else Retry
  }

  lemma HandlingEndsIn(id: JobId, j: Job, a: Account, seen: set<RandomId>, s: Script)
    ensures var h := Handle(id, j, a, seen, s);
            && h.job.status == EndOf(j, a, s)
            && (h.attempt.Some? <==> s.accountFound && !HeldBack(a, s.checkedAt) && s.allowed)
            && h.job.attemptCount == j.attemptCount + (if h.attempt.Some? then 1 else 0)
            && h.job.leaseOwner.None? && h.job.leaseExpiresAt.None?
  {
    hide BackoffSeconds;
    if s.accountFound && !HeldBack(a, s.checkedAt) && s.allowed {
      AttemptEndsIn(id, j, a, seen, s);
      hide Attempted;
    }
  }

  lemma AttemptEndsIn(id: JobId, j: Job, a: Account, seen: set<RandomId>, s: Script)
    requires s.accountFound && !HeldBack(a, s.checkedAt) && s.allowed
    ensures var h := Attempted(id, j, a, seen, s);
            && h.job.status == EndOf(j, a, s) && h.attempt.Some? && h.job.attemptCount == j.attemptCount + 1
            && h.job.leaseOwner.None? && h.job.leaseExpiresAt.None?
  {
    hide BackoffSeconds;
  }

  // A job that is over has no next attempt, except that a sent one keeps the time of the attempt that
  // sent it; only a job put off for its account is scheduled anew.
  lemma OverHasNoNext(id: JobId, j: Job, a: Account, seen: set<RandomId>, s: Script)
    ensures var h := Handle(id, j, a, seen, s);
            && (h.job.status in {Failed, Blocked, Cancelled, DeadLetter} ==> h.job.nextAttemptAt.None?)
            && (h.job.status == Sent ==> h.job.nextAttemptAt == j.nextAttemptAt)
            && (h.job.scheduledAt != j.scheduledAt ==> h.attempt.None? && h.job.status == Retry)
            && h.job.account == j.account && h.job.createdAt == j.createdAt && h.job.maxAttempts == j.maxAttempts
  {
    hide BackoffSeconds;
  }

  predicate IsLatestOf(t: int, a: Account) {
    && (a.floodWaitUntil == Some(t) || a.nextAvailableAt == Some(t))
    && (a.floodWaitUntil.Some? ==> a.floodWaitUntil.value <= t)
    && (a.nextAvailableAt.Some? ==> a.nextAvailableAt.value <= t)
  }

  // When a job to be tried again is due: with the account, once the flood wait is over, or after the
  // backoff for the attempts it has had.
  lemma RetryIsDue(id: JobId, j: Job, a: Account, seen: set<RandomId>, s: Script)
    requires EndOf(j, a, s) == Retry
    ensures var next := Handle(id, j, a, seen, s).job.nextAttemptAt;
            && next.Some?
            && if HeldBack(a, s.checkedAt) then IsLatestOf(next.value, a)
               else if RaisedIn(s).value.FloodWait? then next.value == s.endedAt + RaisedIn(s).value.retryAfter
               else next.value == s.endedAt + BackoffSeconds(j.attemptCount + 1, s.factor)
    ensures var h := Handle(id, j, a, seen, s);
            h.job.scheduledAt == if h.attempt.None? && h.job.nextAttemptAt.value > j.scheduledAt
                                 then h.job.nextAttemptAt.value else j.scheduledAt
  {
    hide BackoffSeconds;
  }

  // A job that is put off for its account is due at the first moment the account is ready, not later.
  lemma PutOffUntilReady(id: JobId, j: Job, a: Account, seen: set<RandomId>, s: Script, now: int)
    requires s.accountFound && HeldBack(a, s.checkedAt)
    ensures var next := Handle(id, j, a, seen, s).job.nextAttemptAt;
            next.Some? && s.checkedAt < next.value && (HeldBack(a, now) <==> now < next.value)
  {
    RetryIsDue(id, j, a, seen, s);
    hide Handle;
  }

  // What one handled job does to its account: a flood wait is recorded, and after an acknowledged send
  // the time to the next one; nothing else changes.
  lemma AccountAfter(id: JobId, j: Job, a: Account, seen: set<RandomId>, s: Script)
    ensures var h := Handle(id, j, a, seen, s);
            var tried, e := h.attempt.Some?, RaisedIn(s);
            && h.account.floodWaitUntil == (if tried && e.Some? && e.value.FloodWait?
                                            then Some(s.endedAt + e.value.retryAfter) else a.floodWaitUntil)
            && h.account.nextAvailableAt == (if tried && e.None? && s.bookkeeping != BreaksEarly
                                             then Some(s.endedAt + a.sendInterval + s.jitter) else a.nextAvailableAt)
            && h.account.sendInterval == a.sendInterval && h.account.sendJitter == a.sendJitter
  {
  }

  // A job keeps the random id it once got; it gets one in the first attempt that comes that far, and
  // the receiver has seen it once a call got through.
  lemma IdAfter(id: JobId, j: Job, a: Account, seen: set<RandomId>, s: Script)
    ensures var h := Handle(id, j, a, seen, s);
            var tried := h.attempt.Some?;
            && h.job.randomId == (if j.randomId.None? && tried && s.beforeId.None? then Some(s.newId) else j.randomId)
            && (tried && s.beforeId.None? && s.beforeSend.None? && s.reached ==>
                  h.job.randomId.Some? && h.seen == seen + {h.job.randomId.value})
            && (!tried || s.beforeId.Some? || s.beforeSend.Some? || !s.reached ==> h.seen == seen)
  {
  }

  // ---- Over whole runs ----

  ghost predicate OnlyExhaustedDie(w: World) {
    forall id <- w.jobs :: w.jobs[id].status == DeadLetter ==> w.jobs[id].attemptCount >= Bound(w.jobs[id])
  }

  lemma StepKeepsExhausted(w: World, e: Event)
    requires OnlyExhaustedDie(w)
    ensures OnlyExhaustedDie(Step(w, e))
  {
    if Enabled(w, e) && e.Process? {
      var j := w.jobs[e.id];
      HandlingEndsIn(e.id, j, w.accounts[j.account], w.seen, e.script);
      HandledFacts(e.id, j, w.accounts[j.account], w.seen, e.script);
      hide Handle;
    } else {
      hide Handle, EarliestReady;
    }
  }

  lemma {:induction false} EveryRunKillsOnlyExhausted(accounts: map<AccountId, Account>, evs: seq<Event>)
    ensures OnlyExhaustedDie(Play(accounts, evs))
  {
    if evs != [] {
      hide OnlyExhaustedDie, Step;
      EveryRunKillsOnlyExhausted(accounts, evs[..|evs| - 1]);
      StepKeepsExhausted(Play(accounts, evs[..|evs| - 1]), evs[|evs| - 1]);
    }
  }

  // Only a job that has used up its attempts is dead-lettered.
  lemma DeadLetterIsExhausted(accounts: map<AccountId, Account>, evs: seq<Event>, id: JobId)
    requires id in Play(accounts, evs).jobs && Play(accounts, evs).jobs[id].status == DeadLetter
    ensures var w := Play(accounts, evs);
            var j := w.jobs[id];
            AttemptsOf(w.attempts, id) == j.attemptCount == Bound(j)
  {
    EveryRunKillsOnlyExhausted(accounts, evs);
    AttemptsBounded(accounts, evs, id);
    hide Play, AttemptsOf;
  }

  // After an attempt that ran into a flood wait or a retryable error, a job with attempts left is tried
  // again, exactly when that wait is over; without any left it is dead-lettered.
  lemma TriedAgainWhenOver(accounts: map<AccountId, Account>, evs: seq<Event>, holder: WorkerId, id: JobId, s: Script)
    requires Enabled(Play(accounts, evs), Process(holder, id, s))
    requires var w := Play(accounts, evs);
             s.accountFound && s.allowed && !HeldBack(w.accounts[w.jobs[id].account], s.checkedAt)
    requires MayRecover(RaisedIn(s))
    ensures var w := Play(accounts, evs + [Process(holder, id, s)]);
            && id in w.jobs && w.attempts != []
            && var j := w.jobs[id];
               var t := w.attempts[|w.attempts| - 1];
               && t.job == id
               && (t.flooded.Some? <==> RaisedIn(s).value.FloodWait?)
               && (t.flooded.Some? ==> w.accounts[j.account].floodWaitUntil == t.flooded)
               && if j.attemptCount >= Bound(j) then j.status == DeadLetter && j.nextAttemptAt.None?
                  else && j.status == Retry && j.nextAttemptAt.Some?
                       && (t.flooded.Some? ==> j.nextAttemptAt == t.flooded)
                       && (t.flooded.None? ==>
                             t.backoff.Some? && j.nextAttemptAt.value == t.endedAt + t.backoff.value)
  {
    PlaySnoc(accounts, evs, Process(holder, id, s));
    var w := Play(accounts, evs);
    var j := w.jobs[id];
    var a := w.accounts[j.account];
    WhatIsNoted(id, j, a, w.seen, s);
    HandlingEndsIn(id, j, a, w.seen, s);
    AccountAfter(id, j, a, w.seen, s);
    HandledFacts(id, j, a, w.seen, s);
    hide Play, Handle;
  }

  // What history notes of an attempt that ended in an error to recover from.
  lemma WhatIsNoted(id: JobId, j: Job, a: Account, seen: set<RandomId>, s: Script)
    requires s.accountFound && s.allowed && !HeldBack(a, s.checkedAt) && MayRecover(RaisedIn(s))
    ensures var h := Handle(id, j, a, seen, s);
            && h.attempt.Some?
            && var t := h.attempt.value;
               && t.job == id && t.endedAt == s.endedAt
               && t.flooded == (if RaisedIn(s).value.FloodWait?
                                then Some(s.endedAt + RaisedIn(s).value.retryAfter) else None)
               && (if LastTry(j) then h.job.nextAttemptAt.None?
                   else && h.job.nextAttemptAt.Some?
                        && (t.flooded.Some? ==> h.job.nextAttemptAt == t.flooded)
                        && (t.flooded.None? ==>
                              t.backoff.Some? && h.job.nextAttemptAt.value == t.endedAt + t.backoff.value))
  {
    hide BackoffSeconds;
  }

  // A claimed job was due.
  predicate Due(j: Job, now: int) {
    && j.scheduledAt <= now
    && (j.status == Queued || (j.status == Retry && j.nextAttemptAt.Some? && j.nextAttemptAt.value <= now))
  }

  ghost predicate HeldAreDue(w: World) {
    forall id <- w.jobs :: w.jobs[id].leaseOwner.Some? ==> Due(w.jobs[id], w.clock)
  }

  lemma StepKeepsHeldDue(w: World, e: Event)
    requires HeldAreDue(w)
    ensures HeldAreDue(Step(w, e))
  {
    if Enabled(w, e) {
      match e {
        case Claim(_, _, _, now, ids) =>
          assert forall id | id in ids :: Due(w.jobs[id], now);
        case Process(_, id, s) =>
          var j := w.jobs[id];
          HandledFacts(id, j, w.accounts[j.account], w.seen, s);
          hide Handle;
        case Enqueue(_, _) =>
        case Cancel(_) =>
      }
    }
  }

  lemma {:induction false} EveryRunHoldsDue(accounts: map<AccountId, Account>, evs: seq<Event>)
    ensures HeldAreDue(Play(accounts, evs))
  {
    if evs != [] {
      hide HeldAreDue, Step;
      EveryRunHoldsDue(accounts, evs[..|evs| - 1]);
      StepKeepsHeldDue(Play(accounts, evs[..|evs| - 1]), evs[|evs| - 1]);
    }
  }

  // Whatever is handled is due: no job is tried before the time it is scheduled for, or a retry before
  // its next attempt.
  lemma HandledWhenDue(accounts: map<AccountId, Account>, evs: seq<Event>, holder: WorkerId, id: JobId, s: Script)
    requires Enabled(Play(accounts, evs), Process(holder, id, s))
    ensures Due(Play(accounts, evs).jobs[id], s.checkedAt)
  {
    EveryRunHoldsDue(accounts, evs);
    hide Play;
  }

  // A claim that is not full takes exactly the jobs that are due and whose lease has run out; a full one
  // takes as many of them as it may.
  lemma DueJobsAreClaimed(w: World, e: Event, id: JobId)
    requires e.Claim? && Enabled(w, e) && id in w.jobs
    ensures |e.ids| <= e.limit
    ensures id in e.ids ==> Due(w.jobs[id], e.now)
    ensures |e.ids| < e.limit ==>
      (id in e.ids <==>
         Due(w.jobs[id], e.now) && !(w.jobs[id].leaseExpiresAt.Some? && e.now < w.jobs[id].leaseExpiresAt.value))
    ensures var j := Step(w, e).jobs[id];
            if id in e.ids then j == w.jobs[id].(leaseOwner := Some(e.worker),
                                                 leaseExpiresAt := Some(e.now + e.leaseSeconds))
            else j == w.jobs[id]
  {
  }

  // A due job is never left behind for one scheduled later, nor, at the same time, for one created later;
  // and it is handled before it.
  lemma EarlierJobsComeFirst(w: World, e: Event, early: JobId, late: JobId)
    requires e.Claim? && Enabled(w, e) && early in w.jobs && late in e.ids && late in w.jobs
    requires Due(w.jobs[early], e.now) && (w.jobs[early].leaseExpiresAt.Some? ==>
                                             w.jobs[early].leaseExpiresAt.value <= e.now)
    requires var a, b := w.jobs[early], w.jobs[late];
             a.scheduledAt < b.scheduledAt || (a.scheduledAt == b.scheduledAt && a.createdAt < b.createdAt)
    ensures exists i, k :: 0 <= i < k < |e.ids| && e.ids[i] == early && e.ids[k] == late
  {
    var k :| 0 <= k < |e.ids| && e.ids[k] == late;
    assert Ready(w.jobs[early], e.now);
    assert early in e.ids;
    var i :| 0 <= i < |e.ids| && e.ids[i] == early;
    assert i < k;
  }

  // ---- Backoff ----

  // Without jitter the backoff is 10 seconds, then twice the one before, and never over 900; the jitter
  // scales it.
  lemma BackoffDoubles(n: nat, factor: real)
    requires n >= 1 && 0.8 <= factor
    ensures BackoffSeconds(1, 1.0) == 10
    ensures BackoffSeconds(n + 1, 1.0) ==
            if 2 * BackoffSeconds(n, 1.0) < 900 then 2 * BackoffSeconds(n, 1.0) else 900
    ensures var b, plain := BackoffSeconds(n, factor), BackoffSeconds(n, 1.0) as real;
            b as real <= plain * factor < (b + 1) as real
  {
    PowPositive(n - 1);
    Unscaled(1);
    Unscaled(n);
    Unscaled(n + 1);
    BaseDoubles(n);
    ScaledUp(BackoffBase(n) as real, factor);
    var x := BackoffBase(n) as real * factor;
    assert BackoffSeconds(n, factor) == x.Floor;
    hide Pow2, BackoffBase, BackoffSeconds;
  }

  lemma BaseDoubles(n: nat)
    requires n >= 1
    ensures BackoffBase(n) >= 10 && BackoffBase(1) == 10
    ensures BackoffBase(n + 1) == if 2 * BackoffBase(n) < 900 then 2 * BackoffBase(n) else 900
  {
    PowPositive(n - 1);
  }

  lemma Unscaled(n: nat)
    requires n >= 1
    ensures BackoffSeconds(n, 1.0) == BackoffBase(n)
  {
    PowPositive(n - 1);
    hide Pow2;
  }

  lemma ScaledUp(x: real, factor: real)
    requires x >= 10.0 && 0.8 <= factor
    ensures x * factor >= 8.0
  {
    assert (x - 10.0) * factor >= 0.0;
  }
}
