// How a campaign run gets on: a sent message makes its run await the reply, a reply moves the run on,
// and every call stops where the campaign's steps and the answers it gets say.
module CampaignProgress {
  import opened Basics
  import opened CampaignSequence
  import opened CampaignJobs
  import opened CampaignSafety

  lemma PlaySnoc(steps: seq<Step>, evs: seq<Event>, e: Event)
    ensures Play(steps, evs + [e]) == Apply(Play(steps, evs), steps, e)
  {
    assert (evs + [e])[..|evs + [e]| - 1] == evs;
  }

  // ---- Sent messages and replies ----

  // Once a job of the step a waiting run waits for is sent, the run awaits the reply, exactly if the step
  // waits for one; and then the next inbound message is consumed as that reply.
  lemma SentMessageAwaitsItsReply(steps: seq<Step>, evs: seq<Event>, j: nat, leadOpen: bool, w: World)
    requires Ordered(steps) && Play(steps, evs).status == WaitingOutbound
    requires var r := Play(steps, evs); j < |r.jobs| && r.jobs[j].step == Some(r.current)
    ensures var r, p := Play(steps, evs), Play(steps, evs).current;
            var sent := Play(steps, evs + [OutboundSent(j)]);
            && StepAt(steps, p).Some?
            && (sent.status == AwaitingReply <==> StepAt(steps, p).value.waitForReply)
            && (!StepAt(steps, p).value.waitForReply ==> sent == r)
    ensures var r, p := Play(steps, evs), Play(steps, evs).current;
            var answered := Play(steps, evs + [OutboundSent(j)] + [InboundMessage(leadOpen, w)]);
            StepAt(steps, p).Some? && StepAt(steps, p).value.waitForReply ==>
              r.history + [Consumed(p)] <= answered.history
  {
    EveryRunReaches(steps, evs);
    PlaySnoc(steps, evs, OutboundSent(j));
    PlaySnoc(steps, evs + [OutboundSent(j)], InboundMessage(leadOpen, w));
    var r := Play(steps, evs);
    hide Play, JobsUpTo, HasJobFor;
    if StepAt(steps, r.current).value.waitForReply {
      ConsumedFirst(steps, r.(status := AwaitingReply), leadOpen, w);
    }
  }

  // A run that awaits a reply takes the next inbound message as that reply.
  lemma ConsumedFirst(steps: seq<Step>, r: Run, leadOpen: bool, w: World)
    requires r.status == AwaitingReply && r.awaiting.Some?
    ensures r.history + [Consumed(r.awaiting.value)] <= HandleInboundMessage(r, steps, leadOpen, w).run.history
  {
    var p := r.awaiting.value;
    var r2 := r.(awaiting := None, status := Active, current := p, history := r.history + [Consumed(p)]);
    HistoryGrows(r2, StepsAfter(steps, p), w);
    if StepAt(steps, p).Some? {
      var o := RunInterestGate(r2, StepAt(steps, p).value, w).0;
      HistoryGrows(o.run, StepsAfter(steps, o.run.current), w);
    }
    hide StepsAfter, ProcessList;
  }

  // The newest job of a step.
  predicate NewestJob(jobs: seq<Job>, position: int, j: nat) {
    && j < |jobs| && jobs[j].step == Some(position)
    && forall k :: j < k < |jobs| ==> jobs[k].step != Some(position)
  }

  lemma {:induction false} NewestIsLatest(jobs: seq<Job>, position: int, j: nat)
    requires NewestJob(jobs, position, j)
    ensures LatestJob(jobs, position) == Some(jobs[j])
  {
    if j < |jobs| - 1 {
      NewestIsLatest(jobs[..|jobs| - 1], position, j);
    }
  }

  // Recovering a waiting run follows the newest job of its step: sent, the run awaits the reply; still
  // under way, it goes on waiting; ended otherwise, the run has failed.
  lemma RecoveryFollowsTheJob(steps: seq<Step>, evs: seq<Event>, j: nat, w: World)
    requires Ordered(steps) && Play(steps, evs).status == WaitingOutbound
    requires NewestJob(Play(steps, evs).jobs, Play(steps, evs).current, j)
    ensures var r := Play(steps, evs);
            Play(steps, evs + [RecoveredWaiting(w)]) ==
            match r.jobs[j].status
            case Sent => r.(status := AwaitingReply)
            case OtherEnd => r.(status := Failed)
            case _ => r
  {
    EveryRunReaches(steps, evs);
    PlaySnoc(steps, evs, RecoveredWaiting(w));
    NewestIsLatest(Play(steps, evs).jobs, Play(steps, evs).current, j);
    hide Play, JobsUpTo, LatestJob;
  }

  // Recovering an LLM run asks the brain or the LLM again, if the dialog is there; whatever it answers,
  // the run no longer stands where it was found.
  lemma RecoveryEndsTheWait(steps: seq<Step>, evs: seq<Event>, w: World)
    requires Ordered(steps) && Play(steps, evs).status == AwaitingLlm
    ensures var r := Play(steps, evs);
            var r' := Play(steps, evs + [RecoveredLlm(w)]);
            && r'.status != AwaitingLlm && r'.current == r.current
            && r'.history == if w.dialogExists then r.history + [Ran(r.current)] else r.history
  {
    EveryRunReaches(steps, evs);
    PlaySnoc(steps, evs, RecoveredLlm(w));
    var step := StepAt(steps, Play(steps, evs).current).value;
    hide Play, JobsUpTo, ProcessNextSteps;
  }

  // An inbound message to a finished or failed run at a brain or LLM step opens it again and has the
  // step answer, if the lead may still be written to; any other run that is over stays as it is.
  lemma OverUnlessReopened(steps: seq<Step>, evs: seq<Event>, leadOpen: bool, w: World)
    requires Ordered(steps) && w.dialogExists && Play(steps, evs).status in {Completed, Failed, HandedOff}
    ensures var r := Play(steps, evs);
            var r' := Play(steps, evs + [InboundMessage(leadOpen, w)]);
            var step := StepAt(steps, r.current);
            if leadOpen && r.status != HandedOff && step.Some? && step.value.stepType in {BrainTurn, LlmDecision}
            then r'.history == r.history + [Consumed(r.current), Ran(r.current)]
            else r' == r
  {
    PlaySnoc(steps, evs, InboundMessage(leadOpen, w));
    var r := Play(steps, evs);
    hide Play, ProcessNextSteps;
    assert r.history + [Consumed(r.current)] + [Ran(r.current)] == r.history + [Consumed(r.current), Ran(r.current)];
  }

  // ---- Where a call stops ----

  // A call goes on over a message that waits for nothing and over a gate that has nothing to say.
  predicate Passes(s: Step, w: World) {
    match s.stepType
    case FixedMessage => w.dialogExists && s.hasText && !s.waitForReply
    case InterestGate =>
      var a := w.answers(s.position);
      w.dialogExists && !a.raises && !a.terminal && !a.reply && a.shouldContinue
    case _ => false
  }

  // How many steps a call goes over.
  function Passing(list: seq<Step>, w: World): nat {
    if list != [] && Passes(list[0], w) then 1 + Passing(list[1..], w) else 0
  }

  lemma {:induction false} PassingWithin(list: seq<Step>, w: World)
    ensures Passing(list, w) <= |list|
  {
    if list != [] && Passes(list[0], w) {
      PassingWithin(list[1..], w);
    }
  }

  // How a call ends that comes to step s and does not pass it; `before` is the position it comes from.
  ghost predicate StopsAt(o: Outcome, s: Step, w: World, before: int) {
    var a := w.answers(s.position);
    if !w.dialogExists || s.stepType == Unsupported || (s.stepType == FixedMessage && !s.hasText) then
      o.raised && o.run.status == Active && o.run.current == before
    else
      match s.stepType
      case FixedMessage => !o.raised && Waits(o.run, s)
      case InterestGate =>
        if a.raises then o.raised && o.run.status == Active && o.run.current == before
        else !o.raised && if a.terminal then Ends(o.run, s, Completed)
                          else if a.reply then Waits(o.run, s)
                          else Ends(o.run, s, Active)
      case BrainTurn =>
        if a.raises then o.raised && Ends(o.run, s, AwaitingLlm)
        else !o.raised && if a.terminal then Ends(o.run, s, if a.handoff then HandedOff else Completed)
                          else if a.reply then Waits(o.run, s)
                          else Ends(o.run, s, AwaitingReply) && o.run.awaiting == Some(s.position)
      case _ =>
        if a.raises then o.raised && Ends(o.run, s, AwaitingLlm)
        else !o.raised && Ends(o.run, s, if a.handoff then HandedOff else Completed)
  }

  predicate Ends(r: Run, s: Step, status: RunStatus) {
    r.status == status && r.current == s.position
  }

  // The run waits for a message of step s to be sent, and has a job for it.
  predicate Waits(r: Run, s: Step) {
    Ends(r, s, WaitingOutbound) && r.awaiting == Some(s.position) && HasJobFor(r.jobs, s.position)
  }

  // An active run goes over the steps that pass and stops at the first that does not; it is completed
  // when there is none.
  lemma {:induction false} CallStops(r: Run, list: seq<Step>, w: World)
    requires r.status == Active
    ensures Passing(list, w) <= |list|
    ensures var o := ProcessList(r, list, w);
            var n := Passing(list, w);
            var before := if n == 0 then r.current else list[n - 1].position;
            if n == |list| then !o.raised && o.run.status == Completed && o.run.current == before
            else StopsAt(o, list[n], w, before)
    decreases |list|
  {
    PassingWithin(list, w);
    if list != [] {
      var (o, goOn) := ProcessStep(r, list[0], w);
      StepPasses(r, list[0], w);
      hide ProcessStep, Passes, StopsAt;
      if goOn {
        CallStops(o.run, list[1..], w);
      }
    }
  }

  lemma StepPasses(r: Run, s: Step, w: World)
    requires r.status == Active
    ensures var (o, goOn) := ProcessStep(r, s, w);
            && (goOn <==> Passes(s, w))
            && (if goOn then !o.raised && Ends(o.run, s, Active) else StopsAt(o, s, w, r.current))
  {
    var job := Job(Some(s.position), Queued);
    assert job in r.jobs + [job];
  }

  // The run of an outcome that went over the first steps of `list` that pass, coming from `before`.
  ghost predicate WentOver(o: Outcome, list: seq<Step>, w: World, before: int) {
    var n := Passing(list, w);
    && n <= |list|
    && var last := if n == 0 then before else list[n - 1].position;
       if n == |list| then !o.raised && o.run.status == Completed && o.run.current == last
       else StopsAt(o, list[n], w, last)
  }

  // A call on a run that is over changes nothing; on any other it goes over the steps ahead.
  lemma CallGoesOver(r: Run, steps: seq<Step>, w: World)
    ensures r.status in {Completed, Failed, HandedOff} ==> ProcessNextSteps(r, steps, w) == Outcome(r, false)
    ensures r.status == Active ==> WentOver(ProcessNextSteps(r, steps, w), StepsAfter(steps, r.current), w, r.current)
  {
    if r.status == Active {
      CallStops(r, StepsAfter(steps, r.current), w);
    }
    hide StepsAfter, Passing, StopsAt, ProcessList;
  }

  // A start goes over the steps ahead of where the run stands, also if it was over.
  lemma StartGoesOver(r: Run, steps: seq<Step>, w: World)
    ensures WentOver(Start(r, steps, w), StepsAfter(steps, r.current), w, r.current)
  {
    CallGoesOver(r.(status := Active), steps, w);
    hide WentOver, ProcessNextSteps, StepsAfter;
  }

  // The steps ahead are those at higher positions.
  lemma {:induction false} StepsAheadOf(steps: seq<Step>, position: int, s: Step)
    ensures s in StepsAfter(steps, position) <==> s in steps && s.position > position
  {
    if steps != [] {
      StepsAheadOf(steps[1..], position, s);
    }
  }

  // What a reply makes a run go over: after a message the steps behind it; at a gate the gate again and
  // the steps behind it; at a brain or LLM step a brain turn.
  function AheadOfReply(steps: seq<Step>, awaiting: Option<int>, current: int): seq<Step> {
    if awaiting.None? then StepsAfter(steps, current)
    else
      var p := awaiting.value;
      match StepAt(steps, p)
      case Some(Step(_, InterestGate, hasText, waits)) => [Step(p, InterestGate, hasText, waits)] + StepsAfter(steps, p)
      case Some(Step(_, BrainTurn, hasText, waits)) => [Step(p, BrainTurn, hasText, waits)]
      case Some(Step(_, LlmDecision, hasText, waits)) => [Step(p, BrainTurn, hasText, waits)]
      case _ => StepsAfter(steps, p)
  }

  // A run that awaits a reply goes on from where it awaits it, over what the reply makes it go over, and
  // stops as those steps and the answers say.
  lemma ReplyMovesTheRunOn(steps: seq<Step>, evs: seq<Event>, leadOpen: bool, w: World)
    requires Play(steps, evs).status == AwaitingReply
    ensures var r := Play(steps, evs);
            exists raised ::
              WentOver(Outcome(Play(steps, evs + [InboundMessage(leadOpen, w)]), raised),
                       AheadOfReply(steps, r.awaiting, r.current), w,
                       if r.awaiting.Some? then r.awaiting.value else r.current)
  {
    PlaySnoc(steps, evs, InboundMessage(leadOpen, w));
    var r := Play(steps, evs);
    hide Play, WentOver;
    ReplyGoesOver(r, steps, leadOpen, w);
    var o := HandleInboundMessage(r, steps, leadOpen, w);
    assert o == Outcome(o.run, o.raised);
  }

  lemma ReplyGoesOver(r: Run, steps: seq<Step>, leadOpen: bool, w: World)
    requires r.status == AwaitingReply
    ensures WentOver(HandleInboundMessage(r, steps, leadOpen, w), AheadOfReply(steps, r.awaiting, r.current), w,
                     if r.awaiting.Some? then r.awaiting.value else r.current)
  {
    if r.awaiting.None? {
      CallGoesOver(r.(status := Active), steps, w);
      hide WentOver, ProcessNextSteps, StepsAfter;
    } else {
      var p := r.awaiting.value;
      var r2 := r.(awaiting := None, status := Active, current := p, history := r.history + [Consumed(p)]);
      var list := AheadOfReply(steps, r.awaiting, r.current);
      CallStops(r2, list, w);
      ReplyIsACall(r2, steps, p, w);
      hide ProcessList, StopsAt, Passing, StepsAfter, AheadOfReply, StepAt;
      assert HandleInboundMessage(r, steps, leadOpen, w) == ProcessList(r2, list, w) by {
        hide ProcessNextSteps;
      }
    }
  }

  // The way the code takes on a reply is a call over those steps.
  lemma ReplyIsACall(r: Run, steps: seq<Step>, p: int, w: World)
    requires r.status == Active && r.current == p
    ensures var step := StepAt(steps, p);
            ProcessList(r, AheadOfReply(steps, Some(p), p), w) ==
            if step.Some? && step.value.stepType in {LlmDecision, BrainTurn} then RunBrainStep(r, step.value, w)
            else if step.Some? && step.value.stepType == InterestGate then
              var (o, goOn) := RunInterestGate(r, step.value, w);
              if goOn then ProcessNextSteps(o.run, steps, w) else o
            else ProcessNextSteps(r, steps, w)
  {
    var list := AheadOfReply(steps, Some(p), p);
    var step := StepAt(steps, p);
    hide StepsAfter, StepAt;
    if step.Some? && step.value.stepType == InterestGate {
      assert list[1..] == StepsAfter(steps, p);
      hide AheadOfReply;
    } else if step.Some? && step.value.stepType in {LlmDecision, BrainTurn} {
      assert |list| == 1 && ProcessStep(r, list[0], w) == (RunBrainStep(r, step.value, w), false);
      hide AheadOfReply, RunBrainStep;
    }
  }

  // Which job a step adds: a message one if it has none yet; a gate or brain turn one for a reply that
  // does not end the run; an LLM decision one for a reply without a handoff, tied to no step.
  lemma WhatAStepQueues(r: Run, s: Step, w: World)
    ensures var a := w.answers(s.position);
            var after := ProcessStep(r, s, w).0.run.jobs;
            var queues := w.dialogExists &&
                          match s.stepType
                          case FixedMessage => s.hasText && forall j <- r.jobs :: j.step != Some(s.position)
                          case Unsupported => false
                          case LlmDecision => !a.raises && a.reply && !a.handoff
                          case _ => !a.raises && a.reply && !a.terminal;
            after == r.jobs + if queues then [Job(if s.stepType == LlmDecision then None else Some(s.position), Queued)]
                              else []
  {
  }

  // Recovering a waiting run whose step is gone fails it; if the step has no job, the run is called
  // again from before that step.
  lemma RecoveryWithoutJob(r: Run, steps: seq<Step>, w: World)
    requires r.status == WaitingOutbound && r.awaiting.Some?
    ensures var p := r.awaiting.value;
            var o := RecoverWaitingOutbound(r, steps, w);
            && (StepAt(steps, p).None? ==> o == Outcome(r.(status := Failed), false))
            && (StepAt(steps, p).Some? && (forall j <- r.jobs :: j.step != Some(p)) ==>
                  exists from :: from < p && from <= r.current && (from == r.current || from == p - 1) &&
                    WentOver(o, StepsAfter(steps, from), w, from))
  {
    var p := r.awaiting.value;
    var from := if r.current < p - 1 then r.current else p - 1;
    CallGoesOver(r.(status := Active, current := from), steps, w);
    hide WentOver, ProcessNextSteps, StepsAfter;
  }
}
