// The worker as it runs: rows claimed by a query and updated in place, one batch at a time.
module OutboundWorker {
  import opened Basics
  import opened OutboundQueue
  import opened OutboundRuns

  class OutboundJob {
    const account: AccountId
    const createdAt: int
    const maxAttempts: int
    var status: Status
    var scheduledAt: int
    var nextAttemptAt: Option<int>
    var attemptCount: nat
    var leaseOwner: Option<WorkerId>
    var leaseExpiresAt: Option<int>
    var randomId: Option<RandomId>

    constructor (j: Job)
      ensures Value() == j
    {
      account, createdAt, maxAttempts := j.account, j.createdAt, j.maxAttempts;
      status, scheduledAt, nextAttemptAt, attemptCount := j.status, j.scheduledAt, j.nextAttemptAt, j.attemptCount;
      leaseOwner, leaseExpiresAt, randomId := j.leaseOwner, j.leaseExpiresAt, j.randomId;
    }

    function Value(): Job
      reads this
    {
      Job(account, status, scheduledAt, createdAt, nextAttemptAt, attemptCount, maxAttempts, leaseOwner,
          leaseExpiresAt, randomId)
    }
  }

  class AccountRow {
    const sendInterval: nat
    const sendJitter: nat
    var floodWaitUntil: Option<int>
    var nextAvailableAt: Option<int>

    constructor (a: Account)
      ensures Value() == a
    {
      sendInterval, sendJitter := a.sendInterval, a.sendJitter;
      floodWaitUntil, nextAvailableAt := a.floodWaitUntil, a.nextAvailableAt;
    }

    function Value(): Account
      reads this
    {
      Account(floodWaitUntil, nextAvailableAt, sendInterval, sendJitter)
    }
  }

  // The counter a handled job ends up in.
  datatype Counter = CSent | CBlocked | CRetry | CFailed | CDeadLetter | CRescheduled | CCancelled

  // OutboundQueueBatchResult
  datatype BatchResult = BatchResult(
    total: nat, sent: nat, blocked: nat, retry: nat, failed: nat, deadLetter: nat, rescheduled: nat, cancelled: nat)

  // The row that a flood wait on the last attempt leaves is dead-lettered, but counted as a retry.
  predicate FloodedIn(s: Script) {
    SendError(s).Some? && SendError(s).value.FloodWait?
  }

  // The counter that a handled row shows: by its status, whether it was attempted, and how that ended.
  function ShownBy(before: Job, after: Job, s: Script): Counter {
    match after.status
    case Sent => CSent
    case Blocked => CBlocked
    case Failed => CFailed
    case Cancelled => CCancelled
    case DeadLetter => if FloodedIn(s) then CRetry else CDeadLetter
    case _ => if after.attemptCount == before.attemptCount then CRescheduled else CRetry
  }

  function CountShown(start: map<JobId, Job>, jobs: map<JobId, Job>, ids: seq<JobId>, scripts: JobId -> Script,
                      c: Counter): nat
  {
    if ids == [] then 0
    else
      var id := ids[|ids| - 1];
      CountShown(start, jobs, ids[..|ids| - 1], scripts, c) +
        if id in start && id in jobs && ShownBy(start[id], jobs[id], scripts(id)) == c then 1 else 0
  }

  function CountStatus(jobs: map<JobId, Job>, ids: seq<JobId>, status: Status): nat {
    if ids == [] then 0
    else
      var id := ids[|ids| - 1];
      CountStatus(jobs, ids[..|ids| - 1], status) + if id in jobs && jobs[id].status == status then 1 else 0
  }

  // Every counter counts the rows of the batch that show it, and nothing else.
  ghost predicate Tallied(r: BatchResult, start: map<JobId, Job>, jobs: map<JobId, Job>, ids: seq<JobId>,
                          scripts: JobId -> Script) {
    && r.sent == CountShown(start, jobs, ids, scripts, CSent)
    && r.blocked == CountShown(start, jobs, ids, scripts, CBlocked)
    && r.retry == CountShown(start, jobs, ids, scripts, CRetry)
    && r.failed == CountShown(start, jobs, ids, scripts, CFailed)
    && r.deadLetter == CountShown(start, jobs, ids, scripts, CDeadLetter)
    && r.rescheduled == CountShown(start, jobs, ids, scripts, CRescheduled)
    && r.cancelled == CountShown(start, jobs, ids, scripts, CCancelled)
    && r.sent + r.blocked + r.retry + r.failed + r.deadLetter + r.rescheduled + r.cancelled == |ids|
  }

  lemma {:induction false} CountUntouched(start: map<JobId, Job>, jobs: map<JobId, Job>, ids: seq<JobId>,
                                          scripts: JobId -> Script, id: JobId, j: Job, c: Counter)
    requires id !in ids
    ensures CountShown(start, jobs[id := j], ids, scripts, c) == CountShown(start, jobs, ids, scripts, c)
  {
    hide ShownBy;
    if ids != [] {
      CountUntouched(start, jobs, ids[..|ids| - 1], scripts, id, j, c);
    }
  }

  lemma CountSnoc(start: map<JobId, Job>, jobs: map<JobId, Job>, ids: seq<JobId>, scripts: JobId -> Script,
                  id: JobId, j: Job, c: Counter)
    requires id !in ids && id in start
    ensures CountShown(start, jobs[id := j], ids + [id], scripts, c) ==
            CountShown(start, jobs, ids, scripts, c) + if ShownBy(start[id], j, scripts(id)) == c then 1 else 0
  {
    hide ShownBy;
    assert (ids + [id])[..|ids + [id]| - 1] == ids;
    CountUntouched(start, jobs, ids, scripts, id, j, c);
  }

  // A dead-lettered row that dead_letter does not count.
  predicate Missed(jobs: map<JobId, Job>, scripts: JobId -> Script, id: JobId) {
    id in jobs && jobs[id].status == DeadLetter && FloodedIn(scripts(id))
  }

  lemma ShownUnlessMissed(start: map<JobId, Job>, jobs: map<JobId, Job>, scripts: JobId -> Script, id: JobId)
    requires id in start && id in jobs
    ensures ShownBy(start[id], jobs[id], scripts(id)) == CDeadLetter <==>
            jobs[id].status == DeadLetter && !Missed(jobs, scripts, id)
    ensures Missed(jobs, scripts, id) ==> jobs[id].status == DeadLetter
  {
    hide FloodedIn;
  }

  // The dead_letter counter is the number of rows left in dead_letter if and only if none of them ended
  // with a flood wait.
  lemma {:induction false} DeadLettersCountedIff(start: map<JobId, Job>, jobs: map<JobId, Job>, ids: seq<JobId>,
                                                 scripts: JobId -> Script)
    requires forall id <- ids :: id in start && id in jobs
    ensures CountShown(start, jobs, ids, scripts, CDeadLetter) <= CountStatus(jobs, ids, DeadLetter)
    ensures CountShown(start, jobs, ids, scripts, CDeadLetter) == CountStatus(jobs, ids, DeadLetter) <==>
            forall id <- ids :: !Missed(jobs, scripts, id)
  {
    if ids != [] {
      hide Missed, ShownBy;
      var init, last := ids[..|ids| - 1], ids[|ids| - 1];
      assert ids == init + [last];
      DeadLettersCountedIff(start, jobs, init, scripts);
      ShownUnlessMissed(start, jobs, scripts, last);
    }
  }

  // Sent, blocked, failed and cancelled count the rows left so.
  lemma {:induction false} EndsAreCounted(start: map<JobId, Job>, jobs: map<JobId, Job>, ids: seq<JobId>,
                                          scripts: JobId -> Script)
    requires forall id <- ids :: id in start && id in jobs
    ensures CountShown(start, jobs, ids, scripts, CSent) == CountStatus(jobs, ids, Sent)
    ensures CountShown(start, jobs, ids, scripts, CBlocked) == CountStatus(jobs, ids, Blocked)
    ensures CountShown(start, jobs, ids, scripts, CFailed) == CountStatus(jobs, ids, Failed)
    ensures CountShown(start, jobs, ids, scripts, CCancelled) == CountStatus(jobs, ids, Cancelled)
  {
    if ids != [] {
      hide FloodedIn;
      EndsAreCounted(start, jobs, ids[..|ids| - 1], scripts);
    }
  }

  function Counted(r: BatchResult, c: Counter): BatchResult {
    match c
    case CSent => r.(sent := r.sent + 1)
    case CBlocked => r.(blocked := r.blocked + 1)
    case CRetry => r.(retry := r.retry + 1)
    case CFailed => r.(failed := r.failed + 1)
    case CDeadLetter => r.(deadLetter := r.deadLetter + 1)
    case CRescheduled => r.(rescheduled := r.rescheduled + 1)
    case CCancelled => r.(cancelled := r.cancelled + 1)
  }

  lemma TallyOne(r: BatchResult, c: Counter, start: map<JobId, Job>, jobs: map<JobId, Job>, ids: seq<JobId>,
                 scripts: JobId -> Script, id: JobId, j: Job)
    requires Tallied(r, start, jobs, ids, scripts) && id !in ids && id in start
    requires c == ShownBy(start[id], j, scripts(id))
    ensures Tallied(Counted(r, c), start, jobs[id := j], ids + [id], scripts) && Counted(r, c).total == r.total
  {
    hide ShownBy;
    forall k ensures CountShown(start, jobs[id := j], ids + [id], scripts, k) ==
                     CountShown(start, jobs, ids, scripts, k) + if c == k then 1 else 0
    {
      CountSnoc(start, jobs, ids, scripts, id, j, k);
    }
    hide CountShown;
  }

  // How _send_job ends for its caller.
  function SendError(s: Script): Option<Error> {
    if s.beforeId.Some? then s.beforeId
    else if s.beforeSend.Some? then s.beforeSend
    else if s.callError.Some? then s.callError
    else if s.bookkeeping != Clean then Some(Unexpected)
    else None
  }

  // The handlers count an error as the row they leave shows it.
  lemma ErrorIsShown(before: Job, j: Job, e: Error, s: Script)
    requires SendError(s) == Some(e) && j.attemptCount == before.attemptCount + 1
    ensures ShownBy(before, HandledJob(j, e, s.endedAt, s.factor), s) ==
            match e
            case Stale => CCancelled
            case FloodWait(_) => CRetry
            case Retryable => if CanRetry(j) then CRetry else CDeadLetter
            case Unexpected => CFailed
  {
    hide BackoffSeconds;
  }

  // What one handled job does to the world.
  function HandleOne(w: World, id: JobId, s: Script): World
    requires id in w.jobs && w.jobs[id].account in w.accounts
  {
    var j := w.jobs[id];
    AfterHandling(w, id, Handle(id, j, w.accounts[j.account], w.seen, s), s.endedAt)
  }

  // The world once `ids` are claimed.
  function Claimed(w: World, worker: WorkerId, ids: seq<JobId>, now: int, until: int): World {
    w.(jobs := LeaseAll(w.jobs, ids, worker, until), clock := now, leases := w.leases + Notes(ids, worker, now, until))
  }

  lemma LeaseSnoc(jobs: map<JobId, Job>, ids: seq<JobId>, id: JobId, worker: WorkerId, until: int)
    requires id in jobs
    ensures LeaseAll(jobs, ids + [id], worker, until) ==
            LeaseAll(jobs, ids, worker, until)[id := Leased(LeaseAll(jobs, ids, worker, until)[id], worker, until)]
  {
  }

  lemma LeaseNone(jobs: map<JobId, Job>, worker: WorkerId, until: int)
    ensures LeaseAll(jobs, [], worker, until) == jobs
  {
  }

  ghost predicate Closed(w: World) {
    forall id <- w.jobs :: w.jobs[id].account in w.accounts
  }

  // The batch loop as a function: jobs whose lease is not ours are skipped.
  function HandleAll(w: World, worker: WorkerId, ids: seq<JobId>, scripts: JobId -> Script): (r: World)
    requires Closed(w) && forall id <- ids :: id in w.jobs
    ensures Closed(r) && r.jobs.Keys == w.jobs.Keys
  {
    if ids == [] then w
    else
      var before := HandleAll(w, worker, ids[..|ids| - 1], scripts);
      var id := ids[|ids| - 1];
      if before.jobs[id].leaseOwner == Some(worker) then HandleOne(before, id, scripts(id)) else before
  }

  lemma HandleSnoc(w: World, worker: WorkerId, ids: seq<JobId>, id: JobId, scripts: JobId -> Script)
    requires Closed(w) && id in w.jobs && forall k <- ids :: k in w.jobs
    ensures var before := HandleAll(w, worker, ids, scripts);
            HandleAll(w, worker, ids + [id], scripts) ==
            if before.jobs[id].leaseOwner == Some(worker) then HandleOne(before, id, scripts(id)) else before
  {
    assert (ids + [id])[..|ids + [id]| - 1] == ids;
  }

  ghost predicate Unleased(jobs: map<JobId, Job>, ids: seq<JobId>) {
    forall i :: 0 <= i < |ids| ==>
      ids[i] in jobs && jobs[ids[i]].leaseOwner.None? && jobs[ids[i]].leaseExpiresAt.None?
  }

  lemma UnleasedOne(jobs: map<JobId, Job>, ids: seq<JobId>, id: JobId, j: Job)
    requires Unleased(jobs, ids) && j.leaseOwner.None? && j.leaseExpiresAt.None?
    ensures Unleased(jobs[id := j], ids + [id])
  {
  }

  // `ids` are the ready jobs chosen so far, in order, and `rest` the ready jobs left.
  ghost predicate Chosen(jobs: map<JobId, Job>, now: int, ids: seq<JobId>, rest: set<JobId>) {
    && (forall id <- jobs :: Ready(jobs[id], now) <==> (id in rest || id in ids))
    && (forall i :: 0 <= i < |ids| ==> ids[i] in jobs && ids[i] !in rest)
    && (forall i, k :: 0 <= i < k < |ids| ==> ids[i] != ids[k] && Before(jobs[ids[i]], jobs[ids[k]]))
    && (forall i, id :: 0 <= i < |ids| && id in rest && id in jobs ==> Before(jobs[ids[i]], jobs[id]))
  }

  lemma ChooseOne(jobs: map<JobId, Job>, now: int, ids: seq<JobId>, rest: set<JobId>, id: JobId)
    requires Chosen(jobs, now, ids, rest) && id in rest && rest <= jobs.Keys
    requires forall k <- rest :: Before(jobs[id], jobs[k])
    ensures Chosen(jobs, now, ids + [id], rest - {id})
  {
    hide Ready, Before;
  }

  lemma ChosenIsEarliest(jobs: map<JobId, Job>, now: int, limit: nat, ids: seq<JobId>, rest: set<JobId>)
    requires Chosen(jobs, now, ids, rest) && |ids| <= limit && (rest == {} || |ids| == limit)
    ensures EarliestReady(jobs, now, limit, ids) && forall i :: 0 <= i < |ids| ==> ids[i] in jobs
  {
    hide Ready, Before;
  }

  class OutboundQueueWorker {
    const leaseOwner: WorkerId
    const jobs: map<JobId, OutboundJob>
    const accounts: map<AccountId, AccountRow>
    ghost const rows: set<OutboundJob>
    ghost const accountRows: set<AccountRow>
    ghost var seen: set<RandomId>
    ghost var clock: int
    ghost var attempts: seq<Attempt>
    ghost var leases: seq<LeaseNote>

    constructor (leaseOwner: WorkerId, jobs: map<JobId, OutboundJob>, accounts: map<AccountId, AccountRow>,
                 ghost w: World)
      requires forall i, k :: i in jobs && k in jobs && i != k ==> jobs[i] != jobs[k]
      requires forall i, k :: i in accounts && k in accounts && i != k ==> accounts[i] != accounts[k]
      requires forall i <- jobs :: jobs[i].account in accounts
      ensures Valid() && this.leaseOwner == leaseOwner && this.jobs == jobs && this.accounts == accounts
      ensures State() == w.(jobs := JobValues(), accounts := AccountValues())
    {
      this.leaseOwner, this.jobs, this.accounts := leaseOwner, jobs, accounts;
      rows, accountRows := jobs.Values, accounts.Values;
      seen, clock, attempts, leases := w.seen, w.clock, w.attempts, w.leases;
    }

    // One object per row, and every job's account is there.
    ghost predicate Valid() {
      && (forall i, k :: i in jobs && k in jobs && i != k ==> jobs[i] != jobs[k])
      && (forall i, k :: i in accounts && k in accounts && i != k ==> accounts[i] != accounts[k])
      && (forall i <- jobs :: jobs[i].account in accounts && jobs[i] in rows)
      && (forall i <- accounts :: accounts[i] in accountRows)
    }

    ghost function JobValues(): map<JobId, Job>
      requires Valid()
      reads rows
    {
      map id <- jobs :: jobs[id].Value()
    }

    ghost function AccountValues(): map<AccountId, Account>
      requires Valid()
      reads accountRows
    {
      map id <- accounts :: accounts[id].Value()
    }

    ghost function State(): World
      requires Valid()
      reads this, rows, accountRows
    {
      World(JobValues(), AccountValues(), seen, clock, attempts, leases)
    }

    // _reschedule_for_account
    method RescheduleForAccount(job: OutboundJob, account: AccountRow, now: int)
      modifies job
      ensures job.Value() == Rescheduled(old(job.Value()), account.Value(), now)
    {
      var next := now + 60;
      if account.floodWaitUntil.Some? && account.nextAvailableAt.Some? {
        next := Max(account.floodWaitUntil.value, account.nextAvailableAt.value);
      } else if account.floodWaitUntil.Some? {
        next := account.floodWaitUntil.value;
      } else if account.nextAvailableAt.Some? {
        next := account.nextAvailableAt.value;
      }
      job.status := Retry;
      job.nextAttemptAt := Some(next);
      job.scheduledAt := Max(job.scheduledAt, next);
    }

    // _mark_terminal
    method MarkTerminal(job: OutboundJob, status: Status)
      modifies job
      ensures job.Value() == Terminal(old(job.Value()), status)
    {
      job.status := status;
      job.nextAttemptAt := None;
    }

    // _mark_flood_wait
    method MarkFloodWait(job: OutboundJob, account: AccountRow, retryAfter: nat, now: int)
      modifies job, account
      ensures job.Value() == HandledJob(old(job.Value()), FloodWait(retryAfter), now, 1.0)
      ensures account.Value() == HandledAccount(old(account.Value()), FloodWait(retryAfter), now)
      ensures account.floodWaitUntil == Some(now + retryAfter)
      ensures if old(job.attemptCount) < (if job.maxAttempts == 0 then 5 else job.maxAttempts)
              then job.status == Retry && job.nextAttemptAt == Some(now + retryAfter)
              else job.status == DeadLetter && job.nextAttemptAt.None?
    {
      account.floodWaitUntil := Some(now + retryAfter);
      job.status := if CanRetry(job.Value()) then Retry else DeadLetter;
      job.nextAttemptAt := if job.status == Retry then Some(now + retryAfter) else None;
    }

    // The three handlers that retry while attempts are left.
    method RetryOrDeadLetter(job: OutboundJob, now: int, factor: real) returns (c: Counter)
      modifies job
      ensures job.Value() == HandledJob(old(job.Value()), Retryable, now, factor)
      ensures c == if CanRetry(old(job.Value())) then CRetry else CDeadLetter
    {
      if CanRetry(job.Value()) {
        job.status := Retry;
        job.nextAttemptAt := Some(now + BackoffSeconds(job.attemptCount, factor));
        c := CRetry;
      } else {
        MarkTerminal(job, DeadLetter);
        c := CDeadLetter;
      }
    }

    // _send_job: raises by returning an error; what it changed before stays.
    method SendJob(id: JobId, job: OutboundJob, account: AccountRow, s: Script)
      returns (error: Option<Error>, ghost note: Attempt)
      modifies job, account, this`seen
      ensures error == SendError(s)
      ensures job.Value() == old(job.Value()).(
                randomId := if s.beforeId.Some? then old(job.randomId) else Some(IdFor(old(job.Value()), s)),
                status := if Calls(s) && s.callError.None? then Sent else old(job.status))
      ensures account.Value() == old(account.Value()).(
                nextAvailableAt := if Calls(s) && s.callError.None? && s.bookkeeping != BreaksEarly
                                   then Some(s.endedAt + account.sendInterval + s.jitter)
                                   else old(account.nextAvailableAt))
      ensures seen == if Calls(s) && s.reached then old(seen) + {IdFor(old(job.Value()), s)} else old(seen)
      ensures note == Attempt(id, job.account, s.checkedAt,
                              if Calls(s) then Some(IdFor(old(job.Value()), s)) else None,
                              Calls(s) && s.reached && IdFor(old(job.Value()), s) !in old(seen),
                              Calls(s) && s.callError.None? && s.bookkeeping != BreaksEarly,
                              None, None, s.endedAt)
    {
      note := Attempt(id, job.account, s.checkedAt, None, false, false, None, None, s.endedAt);
      if s.beforeId.Some? {
        return s.beforeId, note;
      }
      var randomId := if job.randomId.Some? then job.randomId.value else s.newId;
      job.randomId := Some(randomId);
      if s.beforeSend.Some? {
        return s.beforeSend, note;
      }
      note := note.(call := Some(randomId), delivered := s.reached && randomId !in seen);
      if s.reached {
        seen := seen + {randomId};
      }
      if s.callError.Some? {
        return s.callError, note;
      }
      job.status := Sent;
      if s.bookkeeping == BreaksEarly {
        return Some(Unexpected), note;
      }
      account.nextAvailableAt := Some(s.endedAt + account.sendInterval + s.jitter);
      note := note.(paced := true);
      if s.bookkeeping == BreaksLate {
        return Some(Unexpected), note;
      }
      error := None;
    }

    // The exception handlers of the batch loop.
    method HandleError(job: OutboundJob, account: AccountRow, error: Error, s: Script) returns (c: Counter)
      modifies job, account
      ensures job.Value() == HandledJob(old(job.Value()), error, s.endedAt, s.factor)
      ensures account.Value() == HandledAccount(old(account.Value()), error, s.endedAt)
      ensures c == match error
                   case Stale => CCancelled
                   case FloodWait(_) => CRetry
                   case Retryable => if CanRetry(old(job.Value())) then CRetry else CDeadLetter
                   case Unexpected => CFailed
    {
      match error {
        case Stale =>
          MarkTerminal(job, Cancelled);
          c := CCancelled;
        case FloodWait(n) =>
          MarkFloodWait(job, account, n, s.endedAt);
          c := CRetry;
        case Retryable =>
          c := RetryOrDeadLetter(job, s.endedAt, s.factor);
        case Unexpected =>
          MarkTerminal(job, Failed);
          c := CFailed;
      }
    }

    // A counted attempt and the handlers around it, before the finally clause.
    method AttemptRow(id: JobId, job: OutboundJob, account: AccountRow, s: Script)
      returns (c: Counter, ghost note: Attempt)
      modifies job, account, this`seen
      ensures Handled(Released(job.Value()), account.Value(), Some(note), seen) ==
              Attempted(id, old(job.Value()), old(account.Value()), old(seen), s)
      ensures c == ShownBy(old(job.Value()), job.Value(), s)
    {
      ghost var before := job.Value();
      job.status := Processing;
      job.attemptCount := job.attemptCount + 1;
      var error;
      error, note := SendJob(id, job, account, s);
      if error.Some? {
        note := NoteError(note, job.Value(), error.value, s.endedAt, s.factor);
        ErrorIsShown(before, job.Value(), error.value, s);
        hide ShownBy;
        c := HandleError(job, account, error.value, s);
      } else {
        c := CSent;
      }
    }

    // The body of the batch loop, with its handlers and its finally clause.
    method HandleRow(id: JobId, job: OutboundJob, account: AccountRow, s: Script)
      returns (c: Counter, ghost attempt: Option<Attempt>)
      modifies job, account, this`seen
      ensures Handled(job.Value(), account.Value(), attempt, seen) ==
              Handle(id, old(job.Value()), old(account.Value()), old(seen), s)
      ensures c == ShownBy(old(job.Value()), job.Value(), s)
      ensures job.leaseOwner.None? && job.leaseExpiresAt.None?
    {
      attempt := None;
      if !s.accountFound {
        MarkTerminal(job, Failed);
        c := CFailed;
      } else if AccountNotReady(account.Value(), s.checkedAt) {
        RescheduleForAccount(job, account, s.checkedAt);
        c := CRescheduled;
      } else if !s.allowed {
        MarkTerminal(job, Blocked);
        c := CBlocked;
      } else {
        hide Attempted;
        ghost var note;
        c, note := AttemptRow(id, job, account, s);
        attempt := Some(note);
      }
      job.leaseOwner := None;
      job.leaseExpiresAt := None;
    }

    method ProcessOne(id: JobId, s: Script) returns (c: Counter)
      requires Valid() && id in jobs
      modifies jobs[id], accounts[jobs[id].account], this
      ensures State() == HandleOne(old(State()), id, s)
      ensures JobValues() == old(JobValues())[id := jobs[id].Value()]
      ensures jobs[id].leaseOwner.None? && jobs[id].leaseExpiresAt.None?
      ensures c == ShownBy(old(jobs[id].Value()), jobs[id].Value(), s)
    {
      hide Handle;
      var job := jobs[id];
      var account := accounts[job.account];
      ghost var attempt;
      c, attempt := HandleRow(id, job, account, s);
      clock := s.endedAt;
      attempts := attempts + (if attempt.Some? then [attempt.value] else []);
      leases := leases + [Dropped(id)];
      OneJobChanged(id);
      OneAccountChanged(job.account);
    }

    // The earliest of some rows by (scheduled_at, created_at).
    method Earliest(ids: set<JobId>) returns (best: JobId)
      requires ids != {} && ids <= jobs.Keys
      ensures best in ids && forall id <- ids :: Before(jobs[best].Value(), jobs[id].Value())
    {
      best :| best in ids;
      var rest := ids - {best};
      while rest != {}
        invariant rest <= ids && best in ids
        invariant forall id <- ids :: id in rest || Before(jobs[best].Value(), jobs[id].Value())
      {
        var id :| id in rest;
        if !Before(jobs[best].Value(), jobs[id].Value()) {
          best := id;
        }
        rest := rest - {id};
      }
    }

    // The claim query's candidates: ready rows in order, up to the limit.
    method Candidates(limit: nat, now: int) returns (ids: seq<JobId>)
      requires Valid()
      ensures EarliestReady(JobValues(), now, limit, ids) && forall i :: 0 <= i < |ids| ==> ids[i] in jobs
    {
      ids := [];
      var rest := set id <- jobs.Keys | Ready(jobs[id].Value(), now);
      assert Chosen(JobValues(), now, ids, rest);
      hide Ready, Before, EarliestReady, Chosen;
      while rest != {} && |ids| < limit
        invariant rest <= jobs.Keys && |ids| <= limit
        invariant Chosen(JobValues(), now, ids, rest)
        decreases rest
      {
        var id := Earliest(rest);
        assert forall k <- rest :: Before(JobValues()[id], JobValues()[k]);
        ChooseOne(JobValues(), now, ids, rest, id);
        ids := ids + [id];
        rest := rest - {id};
      }
      ChosenIsEarliest(JobValues(), now, limit, ids, rest);
      assert JobValues().Keys == jobs.Keys;
    }

    method Lease(id: JobId, until: int)
      requires Valid() && id in jobs
      modifies jobs[id]
      ensures State() == old(State()).(jobs := old(JobValues())[id := Leased(old(jobs[id].Value()), leaseOwner, until)])
    {
      jobs[id].leaseOwner := Some(leaseOwner);
      jobs[id].leaseExpiresAt := Some(until);
      OneJobChanged(id);
    }

    method LeaseEach(ids: seq<JobId>, until: int)
      requires Valid() && forall i :: 0 <= i < |ids| ==> ids[i] in jobs
      modifies rows
      ensures State() == old(State()).(jobs := LeaseAll(old(JobValues()), ids, leaseOwner, until))
    {
      hide State, JobValues, AccountValues, LeaseAll, Leased, OutboundJob.Value;
      ghost var table := JobValues();
      LeaseNone(table, leaseOwner, until);
      StateHasRows();
      assert ids[..0] == [];
      for i := 0 to |ids|
        invariant State() == old(State()).(jobs := LeaseAll(table, ids[..i], leaseOwner, until))
      {
        RowOf(ids[i]);
        StateHasRows();
        LeaseSnoc(table, ids[..i], ids[i], leaseOwner, until);
        assert ids[..i + 1] == ids[..i] + [ids[i]];
        Lease(ids[i], until);
      }
      assert ids[..|ids|] == ids;
    }

    // claim_ready_batch
    method ClaimReadyBatch(limit: nat, leaseSeconds: nat, now: int) returns (ids: seq<JobId>)
      requires Valid()
      modifies rows, this
      ensures EarliestReady(old(JobValues()), now, limit, ids) && forall i :: 0 <= i < |ids| ==> ids[i] in jobs
      ensures State() == Claimed(old(State()), leaseOwner, ids, now, now + leaseSeconds)
    {
      hide State, JobValues, AccountValues, EarliestReady, LeaseAll, Notes;
      ids := Candidates(limit, now);
      StateHasRows();
      NoteClaim(ids, now, now + leaseSeconds);
      LeaseEach(ids, now + leaseSeconds);
    }

    ghost method NoteClaim(ids: seq<JobId>, now: int, until: int)
      requires Valid()
      modifies this`clock, this`leases
      ensures State() == old(State()).(clock := now, leases := old(leases) + Notes(ids, leaseOwner, now, until))
      ensures JobValues() == old(JobValues())
    {
      hide JobValues, AccountValues;
      clock := now;
      leases := leases + Notes(ids, leaseOwner, now, until);
    }

    lemma StateHasRows()
      requires Valid()
      ensures State().jobs == JobValues() && State().leases == leases && JobValues().Keys == jobs.Keys
    {
    }

    lemma RowOf(id: JobId)
      requires Valid() && id in jobs
      ensures id in JobValues() && JobValues()[id] == jobs[id].Value()
      ensures JobValues()[id].leaseOwner == jobs[id].leaseOwner &&
              JobValues()[id].leaseExpiresAt == jobs[id].leaseExpiresAt
    {
    }

    // process_queued_batch: claim, then handle one row after the other.
    method ProcessQueuedBatch(limit: nat, leaseSeconds: nat, now: int, scripts: JobId -> Script)
      returns (result: BatchResult, ids: seq<JobId>)
      requires Valid()
      modifies rows, accountRows, this
      ensures EarliestReady(old(JobValues()), now, limit, ids)
      ensures Closed(Claimed(old(State()), leaseOwner, ids, now, now + leaseSeconds)) && forall id <- ids :: id in jobs
      ensures var claimed := Claimed(old(State()), leaseOwner, ids, now, now + leaseSeconds);
              && State() == HandleAll(claimed, leaseOwner, ids, scripts)
              && result.total == |ids| && Tallied(result, claimed.jobs, JobValues(), ids, scripts)
      ensures Unleased(JobValues(), ids)
    {
      ids := ClaimReadyBatch(limit, leaseSeconds, now);
      assert forall i :: 0 <= i < |ids| ==> ids[i] in jobs;
      assert forall i, k :: 0 <= i < k < |ids| ==> ids[i] != ids[k];
      hide EarliestReady;
      hide HandleAll, Tallied, Unleased, Claimed, JobValues;
      ghost var claimed := State();
      StateHasRows();
      result := HandleBatch(ids, scripts);
    }

    method HandleBatch(ids: seq<JobId>, scripts: JobId -> Script) returns (result: BatchResult)
      requires Valid() && Closed(State())
      requires forall i :: 0 <= i < |ids| ==> ids[i] in jobs && JobValues()[ids[i]].leaseOwner == Some(leaseOwner)
      requires forall i, k :: 0 <= i < k < |ids| ==> ids[i] != ids[k]
      modifies rows, accountRows, this
      ensures State() == HandleAll(old(State()), leaseOwner, ids, scripts)
      ensures result.total == |ids| && Tallied(result, old(JobValues()), JobValues(), ids, scripts)
      ensures Unleased(JobValues(), ids)
    {
      hide HandleAll, Closed, Tallied, Unleased, State, JobValues, AccountValues, OutboundJob.Value, AccountRow.Value,
          Batched;
      result := BatchResult(|ids|, 0, 0, 0, 0, 0, 0, 0);
      ghost var start := State();
      StateHasRows();
      NothingBatched(scripts, result);
      assert ids[..0] == [];
      for i := 0 to |ids|
        invariant Batched(start, ids[..i], scripts, result) && result.total == |ids|
        invariant JobValues().Keys == jobs.Keys
        invariant forall k :: i <= k < |ids| ==> JobValues()[ids[k]] == start.jobs[ids[k]]
      {
        assert ids[..i + 1] == ids[..i] + [ids[i]];
        assert ids[i] !in ids[..i];
        RowOf(ids[i]);
        if jobs[ids[i]].leaseOwner != Some(leaseOwner) {
          continue;
        }
        result := HandleNext(start, ids[..i], ids[i], scripts, result);
      }
      assert ids[..|ids|] == ids;
      assert start == old(State());
      OnceBatched(start, ids, scripts, result);
    }

    // The batch so far: `done` are handled, counted and released.
    ghost predicate Batched(start: World, done: seq<JobId>, scripts: JobId -> Script, result: BatchResult)
      requires Valid()
      reads this, rows, accountRows
    {
      && Closed(start) && (forall id <- done :: id in start.jobs) && start.jobs.Keys == jobs.Keys
      && State() == HandleAll(start, leaseOwner, done, scripts)
      && Tallied(result, start.jobs, JobValues(), done, scripts)
      && Unleased(JobValues(), done)
    }

    lemma NothingBatched(scripts: JobId -> Script, result: BatchResult)
      requires Valid() && Closed(State()) && result == BatchResult(result.total, 0, 0, 0, 0, 0, 0, 0)
      ensures Batched(State(), [], scripts, result) && JobValues().Keys == jobs.Keys
    {
    }

    lemma OnceBatched(start: World, ids: seq<JobId>, scripts: JobId -> Script, result: BatchResult)
      requires Valid() && Batched(start, ids, scripts, result)
      ensures Closed(start) && (forall id <- ids :: id in start.jobs)
      ensures State() == HandleAll(start, leaseOwner, ids, scripts)
      ensures Tallied(result, start.jobs, JobValues(), ids, scripts) && Unleased(JobValues(), ids)
    {
    }

    method HandleNext(ghost start: World, ghost done: seq<JobId>, id: JobId, scripts: JobId -> Script,
                      before: BatchResult)
      returns (result: BatchResult)
      requires Valid() && Batched(start, done, scripts, before)
      requires id in jobs && id !in done && JobValues()[id].leaseOwner == Some(leaseOwner)
      requires JobValues()[id] == start.jobs[id]
      modifies jobs[id], accounts[jobs[id].account], this
      ensures Batched(start, done + [id], scripts, result) && result.total == before.total
      ensures JobValues() == old(JobValues())[id := jobs[id].Value()]
    {
      hide Handle, HandleOne, HandleAll, Closed, Tallied, ShownBy, Counted, Unleased;
      hide State, JobValues, AccountValues, OutboundJob.Value, AccountRow.Value;
      StateHasRows();
      RowOf(id);
      ghost var table := JobValues();
      var c := ProcessOne(id, scripts(id));
      HandleSnoc(start, leaseOwner, done, id, scripts);
      RowOf(id);
      TallyOne(before, c, start.jobs, table, done, scripts, id, jobs[id].Value());
      UnleasedOne(table, done, id, jobs[id].Value());
      result := Counted(before, c);
    }

    twostate lemma OneJobChanged(id: JobId)
      requires Valid() && id in jobs
      requires forall k <- jobs :: k != id ==> unchanged(jobs[k])
      ensures JobValues() == old(JobValues())[id := jobs[id].Value()]
    {
    }

    twostate lemma OneAccountChanged(id: AccountId)
      requires Valid() && id in accounts
      requires forall k <- accounts :: k != id ==> unchanged(accounts[k])
      ensures AccountValues() == old(AccountValues())[id := accounts[id].Value()]
    {
    }
  }

  // ---- A batch is part of a run ----

  ghost function Handling(worker: WorkerId, ids: seq<JobId>, scripts: JobId -> Script): seq<Event> {
    seq(|ids|, i requires 0 <= i < |ids| => Process(worker, ids[i], scripts(ids[i])))
  }

  // Every step of the batch can happen where it happens.
  ghost predicate BatchEnabled(w: World, worker: WorkerId, ids: seq<JobId>, scripts: JobId -> Script)
    requires Closed(w) && forall id <- ids :: id in w.jobs
  {
    ids == [] ||
    var n := |ids| - 1;
    && BatchEnabled(w, worker, ids[..n], scripts)
    && Enabled(HandleAll(w, worker, ids[..n], scripts), Process(worker, ids[n], scripts(ids[n])))
  }

  lemma StepHandles(w: World, worker: WorkerId, id: JobId, s: Script)
    requires Enabled(w, Process(worker, id, s))
    ensures Step(w, Process(worker, id, s)) == HandleOne(w, id, s) && w.jobs[id].leaseOwner == Some(worker)
  {
    hide Handle;
  }

  lemma StepClaims(w: World, worker: WorkerId, limit: nat, leaseSeconds: nat, now: int, ids: seq<JobId>)
    requires w.clock <= now && EarliestReady(w.jobs, now, limit, ids)
    ensures Step(w, Claim(worker, limit, leaseSeconds, now, ids)) == Claimed(w, worker, ids, now, now + leaseSeconds)
  {
    hide EarliestReady, LeaseAll, Notes;
  }

  lemma {:induction false} HandlingIsPlayed(accounts: map<AccountId, Account>, evs: seq<Event>, w: World,
                                            worker: WorkerId, ids: seq<JobId>, scripts: JobId -> Script)
    requires w == Play(accounts, evs)
    requires Closed(w) && (forall id <- ids :: id in w.jobs) && BatchEnabled(w, worker, ids, scripts)
    ensures Play(accounts, evs + Handling(worker, ids, scripts)) == HandleAll(w, worker, ids, scripts)
  {
    hide Play, Step, HandleOne, Closed, Enabled;
    if ids == [] {
      assert evs + Handling(worker, ids, scripts) == evs;
    } else {
      hide HandleAll, Handling;
      var n := |ids| - 1;
      var before := HandleAll(w, worker, ids[..n], scripts);
      HandlingIsPlayed(accounts, evs, w, worker, ids[..n], scripts);
      StepHandles(before, worker, ids[n], scripts(ids[n]));
      hide BatchEnabled;
      HandlingSnoc(evs, worker, ids[..n], ids[n], scripts);
      HandleSnoc(w, worker, ids[..n], ids[n], scripts);
      assert ids == ids[..n] + [ids[n]];
      PlaySnoc(accounts, evs + Handling(worker, ids[..n], scripts), Process(worker, ids[n], scripts(ids[n])));
    }
  }

  lemma HandlingSnoc(evs: seq<Event>, worker: WorkerId, ids: seq<JobId>, id: JobId, scripts: JobId -> Script)
    ensures evs + Handling(worker, ids + [id], scripts) ==
            evs + Handling(worker, ids, scripts) + [Process(worker, id, scripts(id))]
  {
  }

  lemma {:induction false} RunsAreClosed(accounts: map<AccountId, Account>, evs: seq<Event>)
    ensures Closed(Play(accounts, evs))
  {
    if evs != [] {
      RunsAreClosed(accounts, evs[..|evs| - 1]);
      var w, e := Play(accounts, evs[..|evs| - 1]), evs[|evs| - 1];
      hide Play, EarliestReady, Ready;
      if Enabled(w, e) && e.Process? {
        HandledFacts(e.id, w.jobs[e.id], w.accounts[w.jobs[e.id].account], w.seen, e.script);
        hide Handle;
      }
    }
  }

  // After any run the world a claim leaves is closed, and the claimed jobs are in it.
  lemma ClaimsAreClosed(accounts: map<AccountId, Account>, evs: seq<Event>, worker: WorkerId, limit: nat,
                        now: int, until: int, ids: seq<JobId>)
    requires EarliestReady(Play(accounts, evs).jobs, now, limit, ids)
    ensures var w := Claimed(Play(accounts, evs), worker, ids, now, until);
            Closed(w) && forall id <- ids :: id in w.jobs
  {
    RunsAreClosed(accounts, evs);
    hide Play, Ready, Before;
  }

  // The world a claim leaves after any run.
  ghost function ClaimedAfter(accounts: map<AccountId, Account>, evs: seq<Event>, worker: WorkerId, limit: nat,
                              now: int, until: int, ids: seq<JobId>): (w: World)
    requires EarliestReady(Play(accounts, evs).jobs, now, limit, ids)
    ensures Closed(w) && forall id <- ids :: id in w.jobs
  {
    ClaimsAreClosed(accounts, evs, worker, limit, now, until, ids);
    Claimed(Play(accounts, evs), worker, ids, now, until)
  }

  // A batch of the worker, claimed and handled after any run, is again a run: whatever holds of
  // every run holds after every batch.
  lemma BatchIsARun(accounts: map<AccountId, Account>, evs: seq<Event>, worker: WorkerId, limit: nat, leaseSeconds: nat,
                    now: int, ids: seq<JobId>, scripts: JobId -> Script)
    requires Play(accounts, evs).clock <= now && EarliestReady(Play(accounts, evs).jobs, now, limit, ids)
    requires var w := ClaimedAfter(accounts, evs, worker, limit, now, now + leaseSeconds, ids);
             BatchEnabled(w, worker, ids, scripts)
    ensures var claim := Claim(worker, limit, leaseSeconds, now, ids);
            Play(accounts, evs + [claim] + Handling(worker, ids, scripts)) ==
            HandleAll(ClaimedAfter(accounts, evs, worker, limit, now, now + leaseSeconds, ids), worker, ids, scripts)
  {
    hide Play, Step, Closed, EarliestReady, Claimed, BatchEnabled, HandleAll, Handling;
    var claim := Claim(worker, limit, leaseSeconds, now, ids);
    PlaySnoc(accounts, evs, claim);
    StepClaims(Play(accounts, evs), worker, limit, leaseSeconds, now, ids);
    var claimed := ClaimedAfter(accounts, evs, worker, limit, now, now + leaseSeconds, ids);
    HandlingIsPlayed(accounts, evs + [claim], claimed, worker, ids, scripts);
  }
}
