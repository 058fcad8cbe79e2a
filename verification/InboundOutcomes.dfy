// What becomes of each event of an inbound batch, read off what it carries and what happened to it.
module InboundOutcomes {
  import opened Basics
  import opened InboundQueue

  // The counter an event adds to says the same, except that the retry counter keeps an event that a
  // later restart closed.
  lemma CountedAs(t: Table, worker: WorkerId, ids: seq<EventId>, envs: EventId -> Env, k: nat)
    requires ClaimedBatch(t, worker, ids) && k < |ids| && !Skipped(t, worker, ids, envs, k)
    ensures var e := t[ids[k]];
            var o := ProcessEvent(e, envs(ids[k])).outcome;
            FateOf(t, worker, ids, envs, k) ==
            if o == Raised then CountedFailed
            else if o == Done then CountedProcessed
            else if GoesBack(e, o) then CountedRetry else CountedDeadLetter
  {
    hide ProcessEvent, Skipped;
  }

  // An event that a turn or a restart of its dialog answers.
  predicate Answered(e: Event, env: Env) {
    && e.payload.simulate == NoSimulation && !e.payload.outgoing && env.funnelEnabled
    && (e.dialog.Some? || e.payload.dialog.Some?)
  }

  predicate IsRestart(e: Event, env: Env) {
    Answered(e, env) && env.dialogExists && e.payload.restart
  }

  predicate IsTyping(e: Event, env: Env) {
    Answered(e, env) && env.dialogExists && e.payload.typing && !e.payload.restart
  }

  // A message that reaches the turn buffer; without a dialog row there is no buffer.
  predicate IsBuffered(e: Event, env: Env) {
    Answered(e, env) && env.dialogExists && !e.payload.typing && !e.payload.restart
  }

  // A message the gateway is asked about.
  predicate ReachesGateway(e: Event, env: Env) {
    Answered(e, env) && (!env.dialogExists || (IsBuffered(e, env) && env.buffer == TurnReady))
  }

  // What handling an event comes to, by what it carries and what happens meanwhile.
  lemma OutcomeOf(e: Event, env: Env)
    ensures var o := ProcessEvent(e, env).outcome;
            && (o == Retryable <==> e.payload.simulate == SimulateRetry)
            && (o.Deferred? <==> IsBuffered(e, env) && env.buffer.TurnDeferred?)
            && (o.Deferred? ==> o.retryAt == env.buffer.retryAt)
            && (o == Raised <==>
                  || e.payload.simulate == SimulateFail
                  || (IsRestart(e, env) && env.restarting != Restarts)
                  || (IsTyping(e, env) && env.typingRaises)
                  || (IsBuffered(e, env) && env.buffer == BufferRaises)
                  || (ReachesGateway(e, env) && env.gatewayRaises))
  {
  }

  // An event retires its dialog's other pending events exactly if it is a restart that gets that far:
  // those of the dialog in its own column, or of the one its payload names if the column is empty.
  lemma RetiresExactly(claimed: Event, env: Env, e: Event)
    ensures Retires(claimed, env, e) <==>
            && IsRestart(claimed, env) && env.restarting != FailsBeforeRetiring
            && e.dialog.Some? && e.dialog == if claimed.dialog.Some? then claimed.dialog else claimed.payload.dialog
  {
  }

  // What a restart leaves of the other events of the table: pending ones of its dialog are closed and
  // released without an attempt, all others are as they were.
  lemma RestartCloses(t: Table, id: EventId, env: Env, other: EventId)
    requires id in t && other in t && other != id
    ensures var r := HandleOne(t, id, env)[other];
            if Retires(t[id], env, t[other]) && t[other].status in {Received, Queued, Retry, Processing}
            then && r.status == Processed && r.processedAt == Some(env.now) && r.nextAttemptAt.None?
                 && r.leaseOwner.None? && r.leaseExpiresAt.None?
                 && r.attemptCount == t[other].attemptCount && r.payload == t[other].payload
                 && r.dialog == t[other].dialog && r.maxAttempts == t[other].maxAttempts
            else r == t[other]
  {
    hide ProcessEvent;
  }
}
