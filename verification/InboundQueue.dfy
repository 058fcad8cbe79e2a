// One claimed batch of inbound events, and restarts that retire later events of the same batch
// (app/services/inbound_queue_worker.py, app/services/funnel_graph/gateway.py).
module InboundQueue {
  import opened Basics

  type EventId = nat
  type DialogId = nat
  type WorkerId = nat

  datatype Status = Received | Queued | Retry | Processing | Processed | DeadLetter | Failed

  datatype Simulate = NoSimulation | SimulateRetry | SimulateFail

  datatype Payload = Payload(simulate: Simulate, outgoing: bool, dialog: Option<DialogId>, restart: bool, typing: bool)

  datatype Event = Event(
    payload: Payload,
    dialog: Option<DialogId>,     // the dialog_id column
    status: Status,
    attemptCount: nat,
    maxAttempts: int,
    nextAttemptAt: Option<int>,
    processedAt: Option<int>,
    leaseOwner: Option<WorkerId>,
    leaseExpiresAt: Option<int>)

  datatype Restarting = Restarts | FailsBeforeRetiring | FailsAfterRetiring

  datatype Buffer = TurnReady | TurnDeferred(retryAt: int) | TurnDropped | BufferRaises

  // What the rest of the system does while one event is processed.
  datatype Env = Env(
    funnelEnabled: bool,
    dialogExists: bool,
    restarting: Restarting,
    typingRaises: bool,
    buffer: Buffer,
    gatewayRaises: bool,
    backoff: nat,
    now: int)

  datatype Outcome = Done | Deferred(retryAt: int) | Retryable | Raised

  // Which dialog's events a call of _process_event retires, and how it ends.
  datatype Handled = Handled(retired: Option<DialogId>, outcome: Outcome)

  function DialogOf(e: Event): Option<DialogId> {
    if e.dialog.Some? then e.dialog else e.payload.dialog
  }

  // _process_event
  function ProcessEvent(e: Event, env: Env): Handled {
    var p := e.payload;
    if p.simulate == SimulateRetry then Handled(None, Retryable)
    else if p.simulate == SimulateFail then Handled(None, Raised)
    else if p.outgoing || DialogOf(e).None? || !env.funnelEnabled then Handled(None, Done)
    else if env.dialogExists && p.restart then
      match env.restarting
      case Restarts => Handled(DialogOf(e), Done)
      case FailsBeforeRetiring => Handled(None, Raised)
      case FailsAfterRetiring => Handled(DialogOf(e), Raised)
    else if env.dialogExists && p.typing then Handled(None, if env.typingRaises then Raised else Done)
    else if env.dialogExists && env.buffer != TurnReady then
      match env.buffer
      case TurnDeferred(retryAt) => Handled(None, Deferred(retryAt))
      case BufferRaises => Handled(None, Raised)
      case _ => Handled(None, Done)
    else Handled(None, if env.gatewayRaises then Raised else Done)
  }

  type Table = map<EventId, Event>

  predicate Pending(e: Event) {
    e.status in {Received, Queued, Retry, Processing}
  }

  function RetiredEvent(e: Event, now: int): Event {
    e.(status := Processed, processedAt := Some(now), nextAttemptAt := None, leaseOwner := None, leaseExpiresAt := None)
  }

  function RetiredFor(id: EventId, e: Event, dialog: DialogId, current: EventId, now: int): Event {
    if id != current && e.dialog == Some(dialog) && Pending(e) then RetiredEvent(e, now) else e
  }

  // _retire_pending_inbound_events, for the dialog of the event being processed
  function Retire(t: Table, dialog: DialogId, current: EventId, now: int): Table {
    map id <- t :: RetiredFor(id, t[id], dialog, current, now)
  }

  function Started(e: Event): Event {
    e.(status := Processing, attemptCount := e.attemptCount + 1)
  }

  function Closed(e: Event, status: Status, now: int): Event {
    e.(status := status, processedAt := Some(now), nextAttemptAt := None)
  }

  // The handlers of the batch loop and its finally clause.
  function Finished(e: Event, outcome: Outcome, env: Env): Event {
    var e' :=
      match outcome
      case Done => Closed(e, Processed, env.now)
      case Raised => Closed(e, Failed, env.now)
      case Deferred(retryAt) => e.(status := Retry, nextAttemptAt := Some(retryAt))
      case Retryable =>
        if e.attemptCount >= e.maxAttempts then Closed(e, DeadLetter, env.now)
        else e.(status := Retry, nextAttemptAt := Some(env.now + env.backoff));
    e'.(leaseOwner := None, leaseExpiresAt := None)
  }

  function RetireFor(t: Table, h: Handled, id: EventId, now: int): Table {
    if h.retired.Some? then Retire(t, h.retired.value, id, now) else t
  }

  // One iteration over an event whose lease is still ours.
  function HandleOne(t: Table, id: EventId, env: Env): (r: Table)
    requires id in t
    ensures r.Keys == t.Keys
  {
    var h := ProcessEvent(t[id], env);
    RetireFor(t, h, id, env.now)[id := Finished(Started(t[id]), h.outcome, env)]
  }

  // The batch loop.
  function HandleAll(t: Table, worker: WorkerId, ids: seq<EventId>, envs: EventId -> Env): (r: Table)
    requires forall id <- ids :: id in t
    ensures r.Keys == t.Keys
  {
    if ids == [] then t
    else
      var before := HandleAll(t, worker, ids[..|ids| - 1], envs);
      var id := ids[|ids| - 1];
      if before[id].leaseOwner == Some(worker) then HandleOne(before, id, envs(id)) else before
  }

  // The events of the batch that are passed over because their lease was gone when their turn came.
  predicate Skipped(t: Table, worker: WorkerId, ids: seq<EventId>, envs: EventId -> Env, k: nat)
    requires k < |ids| && forall id <- ids :: id in t
  {
    HandleAll(t, worker, ids[..k], envs)[ids[k]].leaseOwner != Some(worker)
  }

  // A claimed batch: distinct, pending events leased to this worker.
  ghost predicate ClaimedBatch(t: Table, worker: WorkerId, ids: seq<EventId>) {
    && (forall i :: 0 <= i < |ids| ==>
          ids[i] in t && t[ids[i]].leaseOwner == Some(worker) && t[ids[i]].status in {Queued, Retry})
    && (forall i, k :: 0 <= i < k < |ids| ==> ids[i] != ids[k])
  }

  // Processing the event as it was claimed retires the dialog of event e.
  predicate Retires(claimed: Event, env: Env, e: Event) {
    e.dialog.Some? && ProcessEvent(claimed, env).retired == e.dialog
  }

  ghost predicate RetiredBefore(t: Table, ids: seq<EventId>, envs: EventId -> Env, n: nat, id: EventId)
    requires n <= |ids| && id in t && forall i :: 0 <= i < |ids| ==> ids[i] in t
  {
    exists i :: 0 <= i < n && ids[i] != id && Retires(t[ids[i]], envs(ids[i]), t[id])
  }

  // An event as a restart retires it: closed and released, its attempts as they were.
  ghost predicate Gone(e: Event, claimed: Event) {
    e.processedAt.Some? && e == RetiredEvent(claimed, e.processedAt.value)
  }

  lemma AllSnoc(t: Table, worker: WorkerId, ids: seq<EventId>, envs: EventId -> Env, n: nat)
    requires n < |ids| && forall id <- ids :: id in t
    ensures var before := HandleAll(t, worker, ids[..n], envs);
            HandleAll(t, worker, ids[..n + 1], envs) ==
            if before[ids[n]].leaseOwner == Some(worker) then HandleOne(before, ids[n], envs(ids[n])) else before
  {
    assert ids[..n + 1][..n] == ids[..n];
  }

  // What one handled event does to the row of another.
  lemma OtherRow(t: Table, x: EventId, env: Env, id: EventId)
    requires x in t && id in t && x != id
    ensures HandleOne(t, x, env)[id] ==
            if Retires(t[x], env, t[id]) && Pending(t[id]) then RetiredEvent(t[id], env.now) else t[id]
  {
    hide ProcessEvent;
  }

  // A retiring event that is itself retired first adds nothing: the first restart took its whole dialog.
  lemma RetiresTheSame(a: Event, envA: Env, b: Event, envB: Env, e: Event)
    requires Retires(a, envA, b) && Retires(b, envB, e)
    ensures Retires(a, envA, e)
  {
  }

  // Until its turn comes, a row of the batch is as claimed, or retired by an earlier restart; rows
  // outside the batch are the same, or retired.
  lemma {:induction false} UnvisitedRow(t: Table, worker: WorkerId, ids: seq<EventId>, envs: EventId -> Env, n: nat,
                                        id: EventId)
    requires ClaimedBatch(t, worker, ids) && n <= |ids| && id in t && id !in ids[..n]
    ensures var r := HandleAll(t, worker, ids[..n], envs)[id];
            if RetiredBefore(t, ids, envs, n, id) && Pending(t[id]) then Gone(r, t[id]) else r == t[id]
  {
    if n > 0 {
      hide HandleAll, HandleOne, Retires, ProcessEvent;
      var x := ids[n - 1];
      var before := HandleAll(t, worker, ids[..n - 1], envs);
      assert ids[..n] == ids[..n - 1] + [x];
      UnvisitedRow(t, worker, ids, envs, n - 1, id);
      UnvisitedRow(t, worker, ids, envs, n - 1, x);
      AllSnoc(t, worker, ids, envs, n - 1);
      assert RetiredBefore(t, ids, envs, n, id) <==>
             RetiredBefore(t, ids, envs, n - 1, id) || Retires(t[x], envs(x), t[id]);
      if RetiredBefore(t, ids, envs, n - 1, x) {
        var j :| 0 <= j < n - 1 && ids[j] != x && Retires(t[ids[j]], envs(ids[j]), t[x]);
        if Retires(t[x], envs(x), t[id]) {
          RetiresTheSame(t[ids[j]], envs(ids[j]), t[x], envs(x), t[id]);
          assert ids[j] in ids[..n];
        }
      } else {
        OtherRow(before, x, envs(x), id);
        SameDialogs(t, worker, ids[..n - 1], envs, id, x);
      }
    }
  }

  // Handling events never changes which dialog an event belongs to.
  lemma {:induction false} SameDialogs(t: Table, worker: WorkerId, ids: seq<EventId>, envs: EventId -> Env,
                                       id: EventId, x: EventId)
    requires (forall k <- ids :: k in t) && id in t && x in t
    ensures var r := HandleAll(t, worker, ids, envs);
            r[id].dialog == t[id].dialog && (Retires(t[x], envs(x), r[id]) <==> Retires(t[x], envs(x), t[id]))
  {
    if ids != [] {
      SameDialogs(t, worker, ids[..|ids| - 1], envs, id, x);
      hide ProcessEvent, HandleAll;
      var before := HandleAll(t, worker, ids[..|ids| - 1], envs);
      var last := ids[|ids| - 1];
      AllSnoc(t, worker, ids, envs, |ids| - 1);
      assert ids[..|ids| - 1 + 1] == ids;
    }
  }

  // An event of the batch is passed over exactly when an earlier event of the batch restarted its dialog.
  lemma SkippedIffRestartedBefore(t: Table, worker: WorkerId, ids: seq<EventId>, envs: EventId -> Env, k: nat)
    requires ClaimedBatch(t, worker, ids) && k < |ids|
    ensures Skipped(t, worker, ids, envs, k) <==> exists i :: 0 <= i < k && Retires(t[ids[i]], envs(ids[i]), t[ids[k]])
  {
    assert ids[k] !in ids[..k];
    UnvisitedRow(t, worker, ids, envs, k, ids[k]);
  }

  // An event that is not passed over is handled as it was claimed.
  lemma NotSkippedIsClaimed(t: Table, worker: WorkerId, ids: seq<EventId>, envs: EventId -> Env, k: nat)
    requires ClaimedBatch(t, worker, ids) && k < |ids| && !Skipped(t, worker, ids, envs, k)
    ensures HandleAll(t, worker, ids[..k], envs)[ids[k]] == t[ids[k]]
  {
    assert ids[k] !in ids[..k];
    UnvisitedRow(t, worker, ids, envs, k, ids[k]);
    hide HandleAll, Retires;
  }

  ghost predicate RetiredBetween(t: Table, ids: seq<EventId>, envs: EventId -> Env, k: nat, n: nat)
    requires k < n <= |ids| && forall i :: 0 <= i < |ids| ==> ids[i] in t
  {
    exists i :: k < i < n && Retires(t[ids[i]], envs(ids[i]), t[ids[k]])
  }

  // The row an event is left with by its own handling.
  function OwnRow(t: Table, envs: EventId -> Env, id: EventId): Event
    requires id in t
  {
    Finished(Started(t[id]), ProcessEvent(t[id], envs(id)).outcome, envs(id))
  }

  // The row of a visited event: untouched since it was retired, or left by its own handling and
  // retired later if it was put back for another try.
  ghost predicate VisitedWell(t: Table, worker: WorkerId, ids: seq<EventId>, envs: EventId -> Env, n: nat, k: nat)
    requires ClaimedBatch(t, worker, ids) && k < n <= |ids|
  {
    var id := ids[k];
    var r := HandleAll(t, worker, ids[..n], envs)[id];
    if Skipped(t, worker, ids, envs, k) then Gone(r, t[id])
    else if OwnRow(t, envs, id).status == Retry && RetiredBetween(t, ids, envs, k, n) then Gone(r, OwnRow(t, envs, id))
    else r == OwnRow(t, envs, id)
  }

  lemma JustVisited(t: Table, worker: WorkerId, ids: seq<EventId>, envs: EventId -> Env, k: nat)
    requires ClaimedBatch(t, worker, ids) && k < |ids|
    ensures VisitedWell(t, worker, ids, envs, k + 1, k)
  {
    var id := ids[k];
    assert id !in ids[..k];
    UnvisitedRow(t, worker, ids, envs, k, id);
    AllSnoc(t, worker, ids, envs, k);
    hide HandleAll, ProcessEvent, Finished;
  }

  // A row already handled or passed over can only be retired afterwards, and only out of Retry.
  lemma {:induction false} VisitedRow(t: Table, worker: WorkerId, ids: seq<EventId>, envs: EventId -> Env, n: nat,
                                      k: nat)
    requires ClaimedBatch(t, worker, ids) && k < n <= |ids|
    ensures VisitedWell(t, worker, ids, envs, n, k)
  {
    if n == k + 1 {
      JustVisited(t, worker, ids, envs, k);
    } else {
      VisitedRow(t, worker, ids, envs, n - 1, k);
      if Skipped(t, worker, ids, envs, n - 1) {
        SkippedAfterwards(t, worker, ids, envs, n, k);
      } else {
        HandledAfterwards(t, worker, ids, envs, n, k);
      }
    }
  }

  lemma SkippedAfterwards(t: Table, worker: WorkerId, ids: seq<EventId>, envs: EventId -> Env, n: nat, k: nat)
    requires ClaimedBatch(t, worker, ids) && k < n - 1 < |ids|
    requires VisitedWell(t, worker, ids, envs, n - 1, k) && Skipped(t, worker, ids, envs, n - 1)
    ensures VisitedWell(t, worker, ids, envs, n, k)
  {
    hide HandleAll, HandleOne, OwnRow, Retires;
    AllSnoc(t, worker, ids, envs, n - 1);
    SkippedIffRestartedBefore(t, worker, ids, envs, k);
    SkippedIffRestartedBefore(t, worker, ids, envs, n - 1);
    if !Skipped(t, worker, ids, envs, k) && OwnRow(t, envs, ids[k]).status == Retry {
      RetiredAlready(t, ids, envs, k, n, worker);
    }
  }

  lemma HandledAfterwards(t: Table, worker: WorkerId, ids: seq<EventId>, envs: EventId -> Env, n: nat, k: nat)
    requires ClaimedBatch(t, worker, ids) && k < n - 1 < |ids|
    requires VisitedWell(t, worker, ids, envs, n - 1, k) && !Skipped(t, worker, ids, envs, n - 1)
    ensures VisitedWell(t, worker, ids, envs, n, k)
  {
    hide HandleAll, HandleOne, ProcessEvent, Retires, Finished, OwnRow;
    var id, x := ids[k], ids[n - 1];
    var before := HandleAll(t, worker, ids[..n - 1], envs);
    AllSnoc(t, worker, ids, envs, n - 1);
    NotSkippedIsClaimed(t, worker, ids, envs, n - 1);
    OtherRow(before, x, envs(x), id);
    SameDialogs(t, worker, ids[..n - 1], envs, id, x);
    OwnRowStatus(t, envs, id);
    assert RetiredBetween(t, ids, envs, k, n) <==>
           RetiredBetween(t, ids, envs, k, n - 1) || Retires(t[x], envs(x), t[id]);
    hide RetiredBetween, Skipped;
  }

  lemma OwnRowStatus(t: Table, envs: EventId -> Env, id: EventId)
    requires id in t
    ensures var r := OwnRow(t, envs, id);
            && r.status in {Retry, Processed, Failed, DeadLetter} && r.leaseOwner.None? && r.leaseExpiresAt.None?
            && r.dialog == t[id].dialog && r.attemptCount == t[id].attemptCount + 1
            && (r.status == Retry ==> ProcessEvent(t[id], envs(id)).retired.None?)
  {
  }

  // A passed-over event retires nothing that was not retired before, unless event k did it itself.
  lemma RetiredAlready(t: Table, ids: seq<EventId>, envs: EventId -> Env, k: nat, n: nat, worker: WorkerId)
    requires ClaimedBatch(t, worker, ids) && k + 1 < n <= |ids|
    requires exists i :: 0 <= i < n - 1 && Retires(t[ids[i]], envs(ids[i]), t[ids[n - 1]])
    requires forall i :: 0 <= i < k ==> !Retires(t[ids[i]], envs(ids[i]), t[ids[k]])
    requires OwnRow(t, envs, ids[k]).status == Retry
    ensures RetiredBetween(t, ids, envs, k, n) <==> RetiredBetween(t, ids, envs, k, n - 1)
  {
    var x := ids[n - 1];
    OwnRowStatus(t, envs, ids[k]);
    var j :| 0 <= j < n - 1 && Retires(t[ids[j]], envs(ids[j]), t[x]);
    if Retires(t[x], envs(x), t[ids[k]]) {
      RetiresTheSame(t[ids[j]], envs(ids[j]), t[x], envs(x), t[ids[k]]);
    }
    hide ProcessEvent, Finished;
  }

  // The attempt being made is the last the event may have.
  predicate LastTry(e: Event) {
    e.attemptCount + 1 >= e.maxAttempts
  }

  // An event that is to be tried again.
  predicate GoesBack(e: Event, o: Outcome) {
    o.Deferred? || (o == Retryable && !LastTry(e))
  }

  // How an event that was handled ends, by what it came to and whether a later restart closed its dialog.
  predicate EndsWell(e: Event, o: Outcome, env: Env, retired: bool, r: Event) {
    && (r.status == Failed <==> o == Raised)
    && (r.status == DeadLetter <==> o == Retryable && LastTry(e))
    && (r.status == Retry <==> GoesBack(e, o) && !retired)
    && (r.status == Processed <==> o == Done || (GoesBack(e, o) && retired))
    && r.nextAttemptAt == (if r.status != Retry then None
                           else if o.Deferred? then Some(o.retryAt) else Some(env.now + env.backoff))
    && (r.status == Retry ==> r.processedAt == e.processedAt)
    && (!GoesBack(e, o) ==> r.processedAt == Some(env.now))
    && (GoesBack(e, o) && retired ==> r.processedAt.Some?)
  }

  ghost predicate Settled(t: Table, worker: WorkerId, ids: seq<EventId>, envs: EventId -> Env, k: nat, r: Event)
    requires ClaimedBatch(t, worker, ids) && k < |ids|
  {
    var e, env := t[ids[k]], envs(ids[k]);
    && r.leaseOwner.None? && r.leaseExpiresAt.None?
    && r.payload == e.payload && r.dialog == e.dialog && r.maxAttempts == e.maxAttempts
    && if Skipped(t, worker, ids, envs, k) then r.status == Processed && r.attemptCount == e.attemptCount
       else
         && r.attemptCount == e.attemptCount + 1
         && EndsWell(e, ProcessEvent(e, env).outcome, env, RetiredBetween(t, ids, envs, k, |ids|), r)
  }

  lemma OwnEnding(t: Table, envs: EventId -> Env, id: EventId)
    requires id in t
    ensures var r, o := OwnRow(t, envs, id), ProcessEvent(t[id], envs(id)).outcome;
            && (r.status == Retry <==> GoesBack(t[id], o)) && r.maxAttempts == t[id].maxAttempts
            && r.payload == t[id].payload && EndsWell(t[id], o, envs(id), false, r)
  {
    hide ProcessEvent;
  }

  // Every event of the batch ends free and settled. One that was passed over was closed by a restart
  // with no attempt spent. Any other spent one attempt and ends failed exactly if its handling raised,
  // dead exactly if it raised a retryable error on the last attempt, back for another try exactly if it
  // was deferred or had attempts left and no later restart closed it, and processed otherwise.
  lemma BatchSettles(t: Table, worker: WorkerId, ids: seq<EventId>, envs: EventId -> Env, k: nat)
    requires ClaimedBatch(t, worker, ids) && k < |ids|
    ensures Settled(t, worker, ids, envs, k, HandleAll(t, worker, ids, envs)[ids[k]])
  {
    VisitedRow(t, worker, ids, envs, |ids|, k);
    assert ids[..|ids|] == ids;
    OwnRowStatus(t, envs, ids[k]);
    OwnEnding(t, envs, ids[k]);
    hide HandleAll, ProcessEvent, Skipped, OwnRow, RetiredBetween, GoesBack;
  }

  // ---- Counting ----

  datatype Fate = PassedOver | CountedProcessed | CountedFailed | CountedRetry | CountedDeadLetter

  // The counter of the batch loop that event k ends up in.
  function FateOf(t: Table, worker: WorkerId, ids: seq<EventId>, envs: EventId -> Env, k: nat): Fate
    requires k < |ids| && forall id <- ids :: id in t
  {
    if Skipped(t, worker, ids, envs, k) then PassedOver
    else Counter(OwnRow(t, envs, ids[k]).status)
  }

  function Counter(status: Status): Fate {
    match status
    case Processed => CountedProcessed
    case Failed => CountedFailed
    case DeadLetter => CountedDeadLetter
    case _ => CountedRetry
  }

  function CountFate(t: Table, worker: WorkerId, ids: seq<EventId>, envs: EventId -> Env, n: nat, fate: Fate): nat
    requires n <= |ids| && forall id <- ids :: id in t
  {
    if n == 0 then 0
    else CountFate(t, worker, ids, envs, n - 1, fate) + if FateOf(t, worker, ids, envs, n - 1) == fate then 1 else 0
  }

  function CountRows(t: Table, ids: seq<EventId>, n: nat, status: Status): nat
    requires n <= |ids| && forall id <- ids :: id in t
  {
    if n == 0 then 0 else CountRows(t, ids, n - 1, status) + if t[ids[n - 1]].status == status then 1 else 0
  }

  // How the fate of an event and the status it ends with go together.
  lemma FateAndStatus(t: Table, worker: WorkerId, ids: seq<EventId>, envs: EventId -> Env, k: nat)
    requires ClaimedBatch(t, worker, ids) && k < |ids|
    ensures var status := HandleAll(t, worker, ids, envs)[ids[k]].status;
            match FateOf(t, worker, ids, envs, k)
            case PassedOver => status == Processed
            case CountedProcessed => status == Processed
            case CountedFailed => status == Failed
            case CountedDeadLetter => status == DeadLetter
            case CountedRetry => status == (if RetiredBetween(t, ids, envs, k, |ids|) then Processed else Retry)
  {
    VisitedRow(t, worker, ids, envs, |ids|, k);
    assert ids[..|ids|] == ids;
    OwnRowStatus(t, envs, ids[k]);
    hide HandleAll, ProcessEvent, Skipped, OwnRow, RetiredBetween;
  }

  // The counters against the rows: only events put back for retry can change again within the
  // batch, by a later restart of their dialog.
  lemma {:induction false} CountersMatchRows(t: Table, worker: WorkerId, ids: seq<EventId>, envs: EventId -> Env,
                                             n: nat)
    requires ClaimedBatch(t, worker, ids) && n <= |ids|
    ensures var r := HandleAll(t, worker, ids, envs);
            && CountRows(r, ids, n, Failed) == CountFate(t, worker, ids, envs, n, CountedFailed)
            && CountRows(r, ids, n, DeadLetter) == CountFate(t, worker, ids, envs, n, CountedDeadLetter)
            && CountRows(r, ids, n, Retry) <= CountFate(t, worker, ids, envs, n, CountedRetry)
            && CountRows(r, ids, n, Processed) + CountRows(r, ids, n, Retry) ==
               CountFate(t, worker, ids, envs, n, CountedProcessed) + CountFate(t, worker, ids, envs, n, PassedOver) +
               CountFate(t, worker, ids, envs, n, CountedRetry)
  {
    hide HandleAll, FateOf, RetiredBetween, ClaimedBatch;
    if n > 0 {
      CountersMatchRows(t, worker, ids, envs, n - 1);
      FateAndStatus(t, worker, ids, envs, n - 1);
    }
  }

  // The retry counter is the number of rows left in retry if and only if no event put back for retry
  // was closed by a later restart of its dialog.
  lemma {:induction false} RetryCounterExactIff(t: Table, worker: WorkerId, ids: seq<EventId>, envs: EventId -> Env,
                                                n: nat)
    requires ClaimedBatch(t, worker, ids) && n <= |ids|
    ensures var r := HandleAll(t, worker, ids, envs);
            CountRows(r, ids, n, Retry) == CountFate(t, worker, ids, envs, n, CountedRetry) <==>
            forall k :: 0 <= k < n && FateOf(t, worker, ids, envs, k) == CountedRetry ==>
              !RetiredBetween(t, ids, envs, k, |ids|)
  {
    hide HandleAll, FateOf, RetiredBetween, ClaimedBatch;
    if n > 0 {
      RetryCounterExactIff(t, worker, ids, envs, n - 1);
      CountersMatchRows(t, worker, ids, envs, n - 1);
      FateAndStatus(t, worker, ids, envs, n - 1);
    }
  }

  // Every claimed event is counted once.
  lemma {:induction false} FatesAddUp(t: Table, worker: WorkerId, ids: seq<EventId>, envs: EventId -> Env, n: nat)
    requires (forall id <- ids :: id in t) && n <= |ids|
    ensures CountFate(t, worker, ids, envs, n, PassedOver) + CountFate(t, worker, ids, envs, n, CountedProcessed) +
            CountFate(t, worker, ids, envs, n, CountedFailed) + CountFate(t, worker, ids, envs, n, CountedRetry) +
            CountFate(t, worker, ids, envs, n, CountedDeadLetter) == n
  {
    hide FateOf, HandleAll;
    if n > 0 {
      var f := FateOf(t, worker, ids, envs, n - 1);
      FatesAddUp(t, worker, ids, envs, n - 1);
    }
  }
}
