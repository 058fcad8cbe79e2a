// The inbound worker as it runs: event rows changed in place while the batch loop walks over them.
module InboundWorker {
  import opened Basics
  import opened InboundQueue

  class InboundEvent {
    const payload: Payload
    const dialog: Option<DialogId>
    const maxAttempts: int
    var status: Status
    var attemptCount: nat
    var nextAttemptAt: Option<int>
    var processedAt: Option<int>
    var leaseOwner: Option<WorkerId>
    var leaseExpiresAt: Option<int>

    constructor (e: Event)
      ensures Value() == e
    {
      payload, dialog, maxAttempts := e.payload, e.dialog, e.maxAttempts;
      status, attemptCount, nextAttemptAt, processedAt := e.status, e.attemptCount, e.nextAttemptAt, e.processedAt;
      leaseOwner, leaseExpiresAt := e.leaseOwner, e.leaseExpiresAt;
    }

    function Value(): Event
      reads this
    {
      Event(payload, dialog, status, attemptCount, maxAttempts, nextAttemptAt, processedAt, leaseOwner, leaseExpiresAt)
    }
  }

  // InboundQueueBatchResult
  datatype BatchResult = BatchResult(total: nat, processed: nat, failed: nat, retry: nat, deadLetter: nat)

  ghost predicate Counted(r: BatchResult, t: Table, worker: WorkerId, ids: seq<EventId>, envs: EventId -> Env, n: nat)
    requires n <= |ids| && forall id <- ids :: id in t
  {
    && r.processed == CountFate(t, worker, ids, envs, n, CountedProcessed)
    && r.failed == CountFate(t, worker, ids, envs, n, CountedFailed)
    && r.retry == CountFate(t, worker, ids, envs, n, CountedRetry)
    && r.deadLetter == CountFate(t, worker, ids, envs, n, CountedDeadLetter)
  }

  function Bump(r: BatchResult, fate: Fate): BatchResult {
    match fate
    case PassedOver => r
    case CountedProcessed => r.(processed := r.processed + 1)
    case CountedFailed => r.(failed := r.failed + 1)
    case CountedRetry => r.(retry := r.retry + 1)
    case CountedDeadLetter => r.(deadLetter := r.deadLetter + 1)
  }

  lemma BumpCounts(r: BatchResult, t: Table, worker: WorkerId, ids: seq<EventId>, envs: EventId -> Env, n: nat)
    requires n < |ids| && (forall id <- ids :: id in t) && Counted(r, t, worker, ids, envs, n)
    ensures Counted(Bump(r, FateOf(t, worker, ids, envs, n)), t, worker, ids, envs, n + 1)
  {
    hide FateOf;
  }

  class InboundQueueWorker {
    const leaseOwner: WorkerId
    const events: map<EventId, InboundEvent>
    ghost const rows: set<InboundEvent>

    constructor (leaseOwner: WorkerId, events: map<EventId, InboundEvent>)
      requires forall i, k :: i in events && k in events && i != k ==> events[i] != events[k]
      ensures Valid() && this.leaseOwner == leaseOwner && this.events == events
    {
      this.leaseOwner, this.events := leaseOwner, events;
      rows := events.Values;
    }

    // One object per row.
    ghost predicate Valid() {
      && (forall i, k :: i in events && k in events && i != k ==> events[i] != events[k])
      && (forall i <- events :: events[i] in rows)
    }

    ghost function Rows(): Table
      requires Valid()
      reads rows
    {
      map id <- events :: events[id].Value()
    }

    lemma RowOf(id: EventId)
      requires Valid() && id in events
      ensures id in Rows() && Rows()[id] == events[id].Value() && Rows()[id].leaseOwner == events[id].leaseOwner
    {
    }

    twostate lemma OneRowChanged(id: EventId)
      requires Valid() && id in events
      requires forall k <- events :: k != id ==> unchanged(events[k])
      ensures Rows() == old(Rows())[id := events[id].Value()]
    {
    }

    // _retire_pending_inbound_events
    method RetirePendingInboundEvents(dialog: DialogId, current: EventId, now: int)
      requires Valid()
      modifies rows
      ensures Rows() == Retire(old(Rows()), dialog, current, now)
    {
      ghost var before := Rows();
      var rest := events.Keys;
      hide RetiredFor;
      while rest != {}
        invariant rest <= events.Keys
        invariant forall id <- events :: events[id].Value() ==
                    if id in rest then before[id] else RetiredFor(id, before[id], dialog, current, now)
      {
        var id :| id in rest;
        RetireRow(id, dialog, current, now);
        rest := rest - {id};
      }
    }

    method RetireRow(id: EventId, dialog: DialogId, current: EventId, now: int)
      requires id in events
      modifies events[id]
      ensures events[id].Value() == RetiredFor(id, old(events[id].Value()), dialog, current, now)
    {
      var e := events[id];
      if id != current && e.dialog == Some(dialog) && e.status in {Received, Queued, Retry, Processing} {
        e.status := Processed;
        e.processedAt := Some(now);
        e.nextAttemptAt := None;
        e.leaseOwner := None;
        e.leaseExpiresAt := None;
      }
    }

    // _process_event: the branches before and around the services it calls.
    method ProcessOne(id: EventId, env: Env) returns (outcome: Outcome)
      requires Valid() && id in events
      modifies rows
      ensures outcome == ProcessEvent(old(Rows())[id], env).outcome
      ensures Rows() == RetireFor(old(Rows()), ProcessEvent(old(Rows())[id], env), id, env.now)
    {
      RowOf(id);
      hide Rows, Retire;
      var e := events[id];
      if e.payload.simulate == SimulateRetry {
        return Retryable;
      }
      if e.payload.simulate == SimulateFail {
        return Raised;
      }
      if e.payload.outgoing {
        return Done;
      }
      var dialog := if e.dialog.Some? then e.dialog else e.payload.dialog;
      if dialog.None? || !env.funnelEnabled {
        return Done;
      }
      if env.dialogExists && e.payload.restart {
        if env.restarting == FailsBeforeRetiring {
          return Raised;
        }
        RetirePendingInboundEvents(dialog.value, id, env.now);
        return if env.restarting == Restarts then Done else Raised;
      }
      if env.dialogExists && e.payload.typing {
        return if env.typingRaises then Raised else Done;
      }
      if env.dialogExists {
        match env.buffer {
          case TurnReady =>
          case TurnDeferred(retryAt) => return Deferred(retryAt);
          case TurnDropped => return Done;
          case BufferRaises => return Raised;
        }
      }
      outcome := if env.gatewayRaises then Raised else Done;
    }

    // The handlers and the finally clause, on the row itself.
    method Finish(e: InboundEvent, outcome: Outcome, env: Env) returns (fate: Fate)
      modifies e
      ensures e.Value() == Finished(old(e.Value()), outcome, env)
      ensures fate == Counter(e.status)
    {
      match outcome {
        case Deferred(retryAt) =>
          e.status := Retry;
          e.nextAttemptAt := Some(retryAt);
          fate := CountedRetry;
        case Retryable =>
          if e.attemptCount >= e.maxAttempts {
            e.status := DeadLetter;
            e.processedAt := Some(env.now);
            e.nextAttemptAt := None;
            fate := CountedDeadLetter;
          } else {
            e.status := Retry;
            e.nextAttemptAt := Some(env.now + env.backoff);
            fate := CountedRetry;
          }
        case Raised =>
          e.status := Failed;
          e.processedAt := Some(env.now);
          e.nextAttemptAt := None;
          fate := CountedFailed;
        case Done =>
          e.status := Processed;
          e.processedAt := Some(env.now);
          e.nextAttemptAt := None;
          fate := CountedProcessed;
      }
      e.leaseOwner := None;
      e.leaseExpiresAt := None;
    }
  
    // The body of the batch loop for an event whose lease is still ours.
    method HandleRow(id: EventId, env: Env) returns (fate: Fate)
      requires Valid() && id in events
      modifies rows
      ensures Rows() == HandleOne(old(Rows()), id, env)
      ensures var e := old(Rows())[id];
              fate == Counter(Finished(Started(e), ProcessEvent(e, env).outcome, env).status)
    {
      hide Rows, ProcessEvent, RetireFor, Finished, Counter;
      RowOf(id);
      ghost var t := Rows();
      StartRow(id);
      RowOf(id);
      var outcome := ProcessOne(id, env);
      SameProcessing(t[id], env);
      RowOf(id);
      RetiresOthers(t, ProcessEvent(t[id], env), id, env.now, Started(t[id]), Finished(Started(t[id]), outcome, env));
      fate := FinishRow(id, outcome, env);
    }

    method StartRow(id: EventId)
      requires Valid() && id in events
      modifies events[id]
      ensures Rows() == old(Rows())[id := Started(old(Rows())[id])]
    {
      events[id].status := Processing;
      events[id].attemptCount := events[id].attemptCount + 1;
      OneRowChanged(id);
    }

    method FinishRow(id: EventId, outcome: Outcome, env: Env) returns (fate: Fate)
      requires Valid() && id in events
      modifies events[id]
      ensures Rows() == old(Rows())[id := Finished(old(Rows())[id], outcome, env)]
      ensures fate == Counter(Finished(old(Rows())[id], outcome, env).status)
    {
      hide Finished;
      fate := Finish(events[id], outcome, env);
      OneRowChanged(id);
    }

    // process_queued_batch, from the moment its events are claimed.
    method ProcessQueuedBatch(ids: seq<EventId>, envs: EventId -> Env) returns (result: BatchResult, ghost skipped: nat)
      requires Valid() && ClaimedBatch(Rows(), leaseOwner, ids)
      modifies rows
      ensures Rows() == HandleAll(old(Rows()), leaseOwner, ids, envs)
      ensures forall k :: 0 <= k < |ids| ==> Settled(old(Rows()), leaseOwner, ids, envs, k, Rows()[ids[k]])
      ensures result.total == |ids| == result.processed + result.failed + result.retry + result.deadLetter + skipped
      ensures Counted(result, old(Rows()), leaseOwner, ids, envs, |ids|)
      ensures skipped == CountFate(old(Rows()), leaseOwner, ids, envs, |ids|, PassedOver)
    {
      hide Rows, HandleAll, HandleOne, ClaimedBatch, FateOf, Counted;
      ghost var start := Rows();
      ClaimedAreRows(start, ids);
      result := BatchResult(|ids|, 0, 0, 0, 0);
      NothingCounted(result, start, ids, envs);
      assert ids[..0] == [];
      for i := 0 to |ids|
        invariant Rows() == HandleAll(start, leaseOwner, ids[..i], envs)
        invariant result.total == |ids| && Counted(result, start, leaseOwner, ids, envs, i)
      {
        AllSnoc(start, leaseOwner, ids, envs, i);
        BumpCounts(result, start, leaseOwner, ids, envs, i);
        NextFate(start, leaseOwner, ids, envs, i);
        RowOf(ids[i]);
        if events[ids[i]].leaseOwner != Some(leaseOwner) {
          continue;
        }
        var fate := HandleRow(ids[i], envs(ids[i]));
        result := Bump(result, fate);
      }
      assert ids[..|ids|] == ids;
      FatesAddUp(start, leaseOwner, ids, envs, |ids|);
      skipped := CountFate(start, leaseOwner, ids, envs, |ids|, PassedOver);
      SumOfCounts(result, start, ids, envs);
      forall k | 0 <= k < |ids| ensures Settled(start, leaseOwner, ids, envs, k, Rows()[ids[k]]) {
        BatchSettles(start, leaseOwner, ids, envs, k);
      }
    }

    lemma ClaimedAreRows(t: Table, ids: seq<EventId>)
      requires Valid() && t == Rows() && ClaimedBatch(t, leaseOwner, ids)
      ensures t.Keys == events.Keys && forall id <- ids :: id in t
    {
    }

    lemma NothingCounted(r: BatchResult, t: Table, ids: seq<EventId>, envs: EventId -> Env)
      requires (forall id <- ids :: id in t) && r == BatchResult(r.total, 0, 0, 0, 0)
      ensures Counted(r, t, leaseOwner, ids, envs, 0) && HandleAll(t, leaseOwner, [], envs) == t
    {
    }

    lemma SumOfCounts(r: BatchResult, t: Table, ids: seq<EventId>, envs: EventId -> Env)
      requires (forall id <- ids :: id in t) && Counted(r, t, leaseOwner, ids, envs, |ids|)
      ensures r.processed + r.failed + r.retry + r.deadLetter +
              CountFate(t, leaseOwner, ids, envs, |ids|, PassedOver) == |ids|
    {
      FatesAddUp(t, leaseOwner, ids, envs, |ids|);
    }
  }

  // Whether the next event is passed over, and the counter it ends up in otherwise.
  lemma NextFate(t: Table, worker: WorkerId, ids: seq<EventId>, envs: EventId -> Env, k: nat)
    requires ClaimedBatch(t, worker, ids) && k < |ids|
    ensures var before := HandleAll(t, worker, ids[..k], envs);
            var own := Finished(Started(before[ids[k]]), ProcessEvent(before[ids[k]], envs(ids[k])).outcome,
                envs(ids[k]));
            FateOf(t, worker, ids, envs, k) ==
            if before[ids[k]].leaseOwner != Some(worker) then PassedOver else Counter(own.status)
  {
    if !Skipped(t, worker, ids, envs, k) {
      NotSkippedIsClaimed(t, worker, ids, envs, k);
    }
    hide HandleAll, ProcessEvent, Finished, Counter;
  }

  lemma SameProcessing(e: Event, env: Env)
    ensures ProcessEvent(Started(e), env) == ProcessEvent(e, env)
  {
  }

  // Retiring for the current event leaves that event alone.
  lemma RetiresOthers(t: Table, h: Handled, id: EventId, now: int, e: Event, e': Event)
    requires id in t
    ensures RetireFor(t[id := e], h, id, now).Keys == t.Keys && RetireFor(t[id := e], h, id, now)[id] == e
    ensures RetireFor(t[id := e], h, id, now)[id := e'] == RetireFor(t, h, id, now)[id := e']
  {
    var a, b := RetireFor(t[id := e], h, id, now)[id := e'], RetireFor(t, h, id, now)[id := e'];
    assert forall k <- a :: a[k] == b[k];
  }
}
