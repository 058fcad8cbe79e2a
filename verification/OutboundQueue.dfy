// Outbound send jobs: leases, pacing, retries and the receiver's view
// (app/services/outbound_queue_worker.py, app/repositories/outbound_job.py).
module OutboundQueue {
  import opened Basics

  type JobId = nat
  type AccountId = nat
  type RandomId = nat
  type WorkerId = nat

  datatype Status = Queued | Retry | Processing | Sent | Blocked | Cancelled | DeadLetter | Failed

  // Times are seconds; a missing timestamp is None.
  datatype Job = Job(
    account: AccountId,
    status: Status,
    scheduledAt: int,
    createdAt: int,
    nextAttemptAt: Option<int>,
    attemptCount: nat,
    maxAttempts: int,
    leaseOwner: Option<WorkerId>,
    leaseExpiresAt: Option<int>,
    randomId: Option<RandomId>)

  datatype Account = Account(
    floodWaitUntil: Option<int>,
    nextAvailableAt: Option<int>,
    sendInterval: nat,
    sendJitter: nat)

  // The exceptions the batch loop tells apart.
  datatype Error = Stale | FloodWait(retryAfter: nat) | Retryable | Unexpected

  // What the outside world does while one claimed job is handled. The clock is read when the
  // account is checked, when the send call starts, and when the handler needs the time again.
  datatype Script = Script(
    accountFound: bool,
    checkedAt: int,
    allowed: bool,
    beforeId: Option<Error>,      // workspace missing, newer activity, peer not resolved, flood wait, ...
    newId: RandomId,
    beforeSend: Option<Error>,    // newer activity while typing, voice file missing, ...
    startedAt: int,
    reached: bool,                // did the call reach the receiver?
    callError: Option<Error>,     // ... and how it ended for the caller
    endedAt: int,
    jitter: nat,
    bookkeeping: Bookkeeping,
    factor: real)                 // of the backoff, drawn from [0.8, 1.2]

  // After an acknowledged send: all well, or an exception before or after the pacing is recorded.
  datatype Bookkeeping = Clean | BreaksEarly | BreaksLate

  // One attempt to send, as history records it.
  datatype Attempt = Attempt(
    job: JobId,
    account: AccountId,
    at: int,                      // when the account was found ready
    call: Option<RandomId>,       // the id of the send call, if it came to one
    delivered: bool,              // reached the receiver with an id not seen before
    paced: bool,                  // acknowledged, and recorded in next_available_at
    flooded: Option<int>,         // flood wait until
    backoff: Option<int>,         // seconds to the next attempt, for a retryable failure
    endedAt: int)

  predicate Later(deadline: Option<int>, now: int) {
    deadline.Some? && deadline.value > now
  }

  // _account_not_ready
  predicate AccountNotReady(a: Account, now: int) {
    Later(a.floodWaitUntil, now) || Later(a.nextAvailableAt, now)
  }

  function Max(a: int, b: int): int {
    if a < b then b else a
  }

  function Latest(a: Option<int>, b: Option<int>): Option<int> {
    match (a, b)
    case (Some(x), Some(y)) => Some(Max(x, y))
    case (None, _) => b
    case (_, None) => a
  }

  // _reschedule_for_account, for an account that is not ready
  function Rescheduled(j: Job, a: Account, now: int): Job {
    var next := match Latest(a.floodWaitUntil, a.nextAvailableAt) case Some(t) => t case None => now + 60;
    j.(status := Retry, nextAttemptAt := Some(next), scheduledAt := Max(j.scheduledAt, next))
  }

  // job.max_attempts or 5
  function AttemptLimit(j: Job): int {
    if j.maxAttempts == 0 then 5 else j.maxAttempts
  }

  predicate CanRetry(j: Job) {
    j.attemptCount < AttemptLimit(j)
  }

  function Terminal(j: Job, status: Status): Job {
    j.(status := status, nextAttemptAt := None)
  }

  function Released(j: Job): Job {
    j.(leaseOwner := None, leaseExpiresAt := None)
  }

  function Pow2(n: nat): nat {
    if n == 0 then 1 else 2 * Pow2(n - 1)
  }

  function BackoffBase(attemptCount: nat): nat {
    var doubled := 10 * Pow2(if attemptCount == 0 then 0 else attemptCount - 1);
    if doubled < 900 then doubled else 900
  }

  // _compute_backoff_seconds
  function BackoffSeconds(attemptCount: nat, factor: real): int {
    Max(1, (BackoffBase(attemptCount) as real * factor).Floor)
  }

  // How the exception handlers leave the job and its account.
  function HandledJob(j: Job, e: Error, now: int, factor: real): Job {
    match e
    case Stale => Terminal(j, Cancelled)
    case FloodWait(n) =>
      if CanRetry(j) then j.(status := Retry, nextAttemptAt := Some(now + n)) else Terminal(j, DeadLetter)
    case Retryable =>
      if CanRetry(j) then j.(status := Retry, nextAttemptAt := Some(now + BackoffSeconds(j.attemptCount, factor)))
      else Terminal(j, DeadLetter)
    case Unexpected => Terminal(j, Failed)
  }

  function HandledAccount(a: Account, e: Error, now: int): Account {
    if e.FloodWait? then a.(floodWaitUntil := Some(now + e.retryAfter)) else a
  }

  // What history records about a failed attempt.
  function NoteError(t: Attempt, j: Job, e: Error, now: int, factor: real): Attempt {
    match e
    case FloodWait(n) => t.(flooded := Some(now + n))
    case Retryable => t.(backoff := if CanRetry(j) then Some(BackoffSeconds(j.attemptCount, factor)) else None)
    case _ => t
  }

  // The outcome of handling one claimed job; `attempt` is None when nothing was attempted.
  datatype Handled = Handled(job: Job, account: Account, attempt: Option<Attempt>, seen: set<RandomId>)

  function Error1(s: Script): Option<Error> {
    if s.beforeId.Some? then s.beforeId else s.beforeSend
  }

  predicate Calls(s: Script) {
    s.beforeId.None? && s.beforeSend.None?
  }

  function IdFor(j: Job, s: Script): RandomId {
    if j.randomId.Some? then j.randomId.value else s.newId
  }

  // _send_job and the handlers around it, from the moment the attempt is counted.
  function Attempted(id: JobId, j0: Job, a: Account, seen: set<RandomId>, s: Script): Handled {
    var j1 := j0.(status := Processing, attemptCount := j0.attemptCount + 1);
    var rid := IdFor(j0, s);
    var j2 := if s.beforeId.Some? then j1 else j1.(randomId := Some(rid));
    var note := Attempt(id, j0.account, s.checkedAt, None, false, false, None, None, s.endedAt);
    if !Calls(s) then
      var e := Error1(s).value;
      Handled(Released(HandledJob(j2, e, s.endedAt, s.factor)), HandledAccount(a, e, s.endedAt),
              Some(NoteError(note, j2, e, s.endedAt, s.factor)), seen)
    else
      var delivered := s.reached && rid !in seen;
      var seen' := if s.reached then seen + {rid} else seen;
      var called := note.(call := Some(rid), delivered := delivered);
      if s.callError.Some? then
        var e := s.callError.value;
        Handled(Released(HandledJob(j2, e, s.endedAt, s.factor)), HandledAccount(a, e, s.endedAt),
                Some(NoteError(called, j2, e, s.endedAt, s.factor)), seen')
      else
        var paced := s.bookkeeping != BreaksEarly;
        Handled(Released(if s.bookkeeping == Clean then j2.(status := Sent) else Terminal(j2, Failed)),
                if paced then a.(nextAvailableAt := Some(s.endedAt + a.sendInterval + s.jitter)) else a,
                Some(called.(paced := paced)), seen')
  }

  // One iteration of the batch loop over a job whose lease is still ours.
  function Handle(id: JobId, j: Job, a: Account, seen: set<RandomId>, s: Script): Handled {
    if !s.accountFound then Handled(Released(Terminal(j, Failed)), a, None, seen)
    else if AccountNotReady(a, s.checkedAt) then Handled(Released(Rescheduled(j, a, s.checkedAt)), a, None, seen)
    else if !s.allowed then Handled(Released(Terminal(j, Blocked)), a, None, seen)
    else Attempted(id, j, a, seen, s)
  }

  // ---- Claiming ----

  predicate Ready(j: Job, now: int) {
    && (j.status == Queued || (j.status == Retry && j.nextAttemptAt.Some? && j.nextAttemptAt.value <= now))
    && j.scheduledAt <= now
    && (j.leaseExpiresAt.None? || j.leaseExpiresAt.value <= now)
  }

  // ORDER BY scheduled_at, created_at
  predicate Before(a: Job, b: Job) {
    a.scheduledAt < b.scheduledAt || (a.scheduledAt == b.scheduledAt && a.createdAt <= b.createdAt)
  }

  // What the claim query returns: at most `limit` ready jobs, in order, and no ready job left
  // out comes strictly before one taken.
  ghost predicate EarliestReady(jobs: map<JobId, Job>, now: int, limit: nat, ids: seq<JobId>) {
    && |ids| <= limit
    && (forall i :: 0 <= i < |ids| ==> ids[i] in jobs && Ready(jobs[ids[i]], now))
    && (forall i, k :: 0 <= i < k < |ids| ==> ids[i] != ids[k] && Before(jobs[ids[i]], jobs[ids[k]]))
    && (forall id <- jobs :: Ready(jobs[id], now) && id !in ids ==>
          |ids| == limit && forall i :: 0 <= i < |ids| ==> Before(jobs[ids[i]], jobs[id]))
  }

  function Leased(j: Job, worker: WorkerId, expires: int): Job {
    j.(leaseOwner := Some(worker), leaseExpiresAt := Some(expires))
  }

  function LeaseAll(jobs: map<JobId, Job>, ids: seq<JobId>, worker: WorkerId, expires: int): map<JobId, Job> {
    map id <- jobs :: if id in ids then Leased(jobs[id], worker, expires) else jobs[id]
  }
}
