// CampaignSequenceService as it runs: one run row, updated in place by every entry point.
// A method returns raised = true where the service raises; what it changed before stays.
module CampaignService {
  import opened Basics
  import opened CampaignSequence

  class CampaignSequenceService {
    const steps: seq<Step>
    var status: RunStatus
    var currentStepPosition: int
    var awaitingReplyAfterStep: Option<int>
    var jobs: seq<Job>
    ghost var history: seq<Act>

    constructor (steps: seq<Step>)
      ensures this.steps == steps && State() == NEW_RUN
    {
      this.steps := steps;
      status, currentStepPosition, awaitingReplyAfterStep, jobs, history := Active, 0, None, [], [];
    }

    ghost function State(): Run
      reads this
    {
      Run(status, currentStepPosition, awaitingReplyAfterStep, jobs, history)
    }

    method StartRun(w: World) returns (raised: bool)
      modifies this
      ensures Outcome(State(), raised) == Start(old(State()), steps, w)
    {
      status := Active;
      raised := ProcessNext(w);
    }

    // process_next_steps: a loop over the steps ahead that most branches leave early.
    method ProcessNext(w: World) returns (raised: bool)
      modifies this
      ensures Outcome(State(), raised) == ProcessNextSteps(old(State()), steps, w)
    {
      if status in {Completed, Failed, HandedOff} {
        return false;
      }
      var nextSteps := StepsAhead();
      assert nextSteps[0..] == nextSteps;
      for i := 0 to |nextSteps|
        invariant ProcessList(State(), nextSteps[i..], w) == ProcessList(old(State()), nextSteps, w)
      {
        var step := nextSteps[i];
        assert nextSteps[i..][1..] == nextSteps[i + 1..];
        match step.stepType {
          case FixedMessage =>
            raised := ScheduleFixed(step, w);
            if raised {
              return;
            }
            if step.waitForReply {
              status := WaitingOutbound;
              awaitingReplyAfterStep := Some(step.position);
              return;
            }
          case InterestGate =>
            var goOn;
            raised, goOn := RunGate(step, w);
            if raised || !goOn {
              return;
            }
          case BrainTurn =>
            raised := RunBrain(step, w);
            return;
          case LlmDecision =>
            raised := RunLlm(step, w);
            return;
          case Unsupported =>
            return true;
        }
      }
      status := Completed;
      raised := false;
    }

    method StepsAhead() returns (ahead: seq<Step>)
      ensures ahead == StepsAfter(steps, currentStepPosition)
    {
      ahead := [];
      assert steps[0..] == steps;
      for i := 0 to |steps|
        invariant ahead + StepsAfter(steps[i..], currentStepPosition) == StepsAfter(steps, currentStepPosition)
      {
        assert steps[i..][1..] == steps[i + 1..];
        if steps[i].position > currentStepPosition {
          ahead := ahead + [steps[i]];
        }
      }
    }

    method ScheduleFixed(step: Step, w: World) returns (raised: bool)
      modifies this
      ensures Outcome(State(), raised) == ScheduleFixedMessage(old(State()), step, w)
    {
      if !w.dialogExists || !step.hasText {
        return true;
      }
      if HasJobFor(jobs, step.position) {
        currentStepPosition := step.position;
        if step.waitForReply && status != AwaitingReply {
          status := WaitingOutbound;
          awaitingReplyAfterStep := Some(step.position);
        }
        return false;
      }
      jobs := jobs + [Job(Some(step.position), Queued)];
      history := history + [Scheduled(step.position)];
      currentStepPosition := step.position;
      raised := false;
    }

    method ScheduleLlmReply(position: Option<int>)
      modifies this
      ensures State() == old(State()).(jobs := old(jobs) + [Job(position, Queued)],
                                       status := if position.Some? then WaitingOutbound else old(status),
                                       awaiting := if position.Some? then position else old(awaitingReplyAfterStep))
    {
      jobs := jobs + [Job(position, Queued)];
      if position.Some? {
        status := WaitingOutbound;
        awaitingReplyAfterStep := position;
      }
    }

    method RunGate(step: Step, w: World) returns (raised: bool, goOn: bool)
      modifies this
      ensures (Outcome(State(), raised), goOn) == RunInterestGate(old(State()), step, w)
    {
      if !w.dialogExists {
        return true, false;
      }
      var result := w.answers(step.position);
      history := history + [Ran(step.position)];
      if result.raises {
        return true, false;
      }
      currentStepPosition := step.position;
      if result.terminal {
        status := Completed;
        return false, false;
      }
      if result.reply {
        ScheduleLlmReply(Some(step.position));
        return false, false;
      }
      return false, result.shouldContinue;
    }

    method RunBrain(step: Step, w: World) returns (raised: bool)
      modifies this
      ensures Outcome(State(), raised) == RunBrainStep(old(State()), step, w)
    {
      if !w.dialogExists {
        return true;
      }
      status := AwaitingLlm;
      currentStepPosition := step.position;
      var result := w.answers(step.position);
      history := history + [Ran(step.position)];
      if result.raises {
        return true;
      }
      if result.terminal {
        status := if result.handoff then HandedOff else Completed;
      } else if result.reply {
        ScheduleLlmReply(Some(step.position));
      } else {
        status := AwaitingReply;
        awaitingReplyAfterStep := Some(step.position);
      }
      raised := false;
    }

    method RunLlm(step: Step, w: World) returns (raised: bool)
      modifies this
      ensures Outcome(State(), raised) == RunLlmStep(old(State()), step, w)
    {
      if !w.dialogExists {
        return true;
      }
      status := AwaitingLlm;
      currentStepPosition := step.position;
      var decision := w.answers(step.position);
      history := history + [Ran(step.position)];
      if decision.raises {
        return true;
      }
      if decision.handoff {
        status := HandedOff;
      } else if decision.reply {
        ScheduleLlmReply(None);
        status := Completed;
      } else {
        status := Completed;
      }
      raised := false;
    }

    method HandleInbound(leadOpen: bool, w: World) returns (raised: bool)
      modifies this
      ensures Outcome(State(), raised) == HandleInboundMessage(old(State()), steps, leadOpen, w)
    {
      if !Ongoing(status) {
        ReopenLatest(leadOpen);
      }
      if status != AwaitingReply {
        return false;
      }
      var awaitedPosition := awaitingReplyAfterStep;
      awaitingReplyAfterStep := None;
      status := Active;
      if awaitedPosition.Some? {
        history := history + [Consumed(awaitedPosition.value)];
        var awaited := StepAt(steps, awaitedPosition.value);
        currentStepPosition := awaitedPosition.value;
        if awaited.Some? && awaited.value.stepType in {LlmDecision, BrainTurn} {
          raised := RunBrain(awaited.value, w);
          return;
        }
        if awaited.Some? && awaited.value.stepType == InterestGate {
          var goOn;
          raised, goOn := RunGate(awaited.value, w);
          if goOn {
            raised := ProcessNext(w);
          }
          return;
        }
      }
      raised := ProcessNext(w);
    }

    method ReopenLatest(leadOpen: bool)
      modifies this
      ensures State() == Reopen(old(State()), steps, leadOpen)
    {
      if !leadOpen || status !in {Completed, Failed} {
        return;
      }
      var step := StepAt(steps, currentStepPosition);
      if step.None? || step.value.stepType !in {BrainTurn, LlmDecision} {
        return;
      }
      status := AwaitingReply;
      awaitingReplyAfterStep := Some(step.value.position);
    }

    method MarkSent(position: Option<int>)
      modifies this
      ensures State() == MarkOutboundSent(old(State()), steps, position)
      ensures var step := if position.Some? then StepAt(steps, position.value) else None;
              var awaited := step.Some? && step.value.waitForReply && old(awaitingReplyAfterStep) == position;
              status == if awaited && old(status) in {Active, WaitingOutbound} then AwaitingReply else old(status)
    {
      if position.None? {
        return;
      }
      var step := StepAt(steps, position.value);
      if step.None? || !step.value.waitForReply || awaitingReplyAfterStep != Some(step.value.position) {
        return;
      }
      if status in {Active, WaitingOutbound} {
        status := AwaitingReply;
      }
    }

    method RecoverWaiting(w: World) returns (raised: bool)
      modifies this
      ensures Outcome(State(), raised) == RecoverWaitingOutbound(old(State()), steps, w)
    {
      if awaitingReplyAfterStep.None? {
        status := Active;
        raised := ProcessNext(w);
        return;
      }
      var awaited := awaitingReplyAfterStep.value;
      if StepAt(steps, awaited).None? {
        status := Failed;
        return false;
      }
      var job := LatestJob(jobs, awaited);
      if job.None? {
        status := Active;
        if awaited - 1 < currentStepPosition {
          currentStepPosition := awaited - 1;
        }
        raised := ProcessNext(w);
        return;
      }
      if job.value.status == Sent {
        status := AwaitingReply;
      } else if job.value.status !in {Queued, Retry, Processing} {
        status := Failed;
      }
      raised := false;
    }

    method RecoverLlm(w: World) returns (raised: bool)
      modifies this
      ensures Outcome(State(), raised) == RecoverAwaitingLlm(old(State()), steps, w)
    {
      var step := StepAt(steps, currentStepPosition);
      if step.Some? && step.value.stepType == BrainTurn {
        raised := RunBrain(step.value, w);
      } else if step.Some? && step.value.stepType == LlmDecision {
        raised := RunLlm(step.value, w);
      } else {
        raised := ProcessNext(w);
      }
      if raised {
        status := Failed;
      }
    }
  }
}
