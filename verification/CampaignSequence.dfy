// The run of one dialog through a campaign (app/services/campaign_sequence.py).
module CampaignSequence {
  import opened Basics

  datatype StepType = FixedMessage | InterestGate | BrainTurn | LlmDecision | Unsupported

  datatype Step = Step(position: int, stepType: StepType, hasText: bool, waitForReply: bool)

  datatype RunStatus = Active | WaitingOutbound | AwaitingReply | AwaitingLlm | Completed | Failed | HandedOff

  datatype JobStatus = Queued | Retry | Processing | Sent | OtherEnd

  // An outbound job of the run; LLM replies of llm_decision steps carry no step.
  datatype Job = Job(step: Option<int>, status: JobStatus)

  // History, for stating what a run did and in which order.
  datatype Act = Scheduled(position: int) | Ran(position: int) | Consumed(position: int)

  datatype Run = Run(
    status: RunStatus,
    current: int,
    awaiting: Option<int>,
    jobs: seq<Job>,
    history: seq<Act>)

  // What the brain or the LLM answers at one step.
  datatype Answer = Answer(raises: bool, terminal: bool, handoff: bool, reply: bool, shouldContinue: bool)

  // Everything one call gets from outside: whether the dialog row exists, and the answer at
  // every position it may ask for (a call runs each step at most once).
  datatype World = World(dialogExists: bool, answers: int -> Answer)

  // A call either returns or raises; what it changed before raising stays.
  datatype Outcome = Outcome(run: Run, raised: bool)

  const NEW_RUN := Run(Active, 0, None, [], [])

  // (campaign_id, position) is unique and steps are listed by position.
  ghost predicate Ordered(steps: seq<Step>) {
    forall i, j :: 0 <= i < j < |steps| ==> steps[i].position < steps[j].position
  }

  // The first step at a position, if there is one.
  function StepAt(steps: seq<Step>, position: int): (s: Option<Step>)
    ensures s.Some? ==> s.value in steps && s.value.position == position
    ensures s.None? ==> forall t <- steps :: t.position != position
  {
    if steps == [] then None
    else if steps[0].position == position then Some(steps[0]) else StepAt(steps[1..], position)
  }

  predicate HasJobFor(jobs: seq<Job>, position: int) {
    exists j <- jobs :: j.step == Some(position)
  }

  // _latest_job_for_run_step: jobs are appended in creation order.
  function LatestJob(jobs: seq<Job>, position: int): (j: Option<Job>)
    ensures j.Some? <==> HasJobFor(jobs, position)
  {
    if jobs == [] then None
    else if jobs[|jobs| - 1].step == Some(position) then Some(jobs[|jobs| - 1])
    else LatestJob(jobs[..|jobs| - 1], position)
  }

  // ---- The steps of the service ----

  function ScheduleFixedMessage(r: Run, step: Step, w: World): Outcome {
    if !w.dialogExists || !step.hasText then Outcome(r, true)
    else if HasJobFor(r.jobs, step.position) then
      var r' := r.(current := step.position);
      Outcome(if step.waitForReply && r.status != AwaitingReply
              then r'.(status := WaitingOutbound, awaiting := Some(step.position)) else r', false)
    else
      Outcome(r.(jobs := r.jobs + [Job(Some(step.position), Queued)],
                 history := r.history + [Scheduled(step.position)],
                 current := step.position), false)
  }

  function ScheduleReply(r: Run, position: int): Run {
    r.(jobs := r.jobs + [Job(Some(position), Queued)], status := WaitingOutbound, awaiting := Some(position))
  }

  // The flag says whether the caller goes on with the next step.
  function RunInterestGate(r: Run, step: Step, w: World): (Outcome, bool) {
    var a := w.answers(step.position);
    var r' := r.(history := r.history + [Ran(step.position)], current := step.position);
    if !w.dialogExists then (Outcome(r, true), false)
    else if a.raises then (Outcome(r.(history := r'.history), true), false)
    else if a.terminal then (Outcome(r'.(status := Completed), false), false)
    else if a.reply then (Outcome(ScheduleReply(r', step.position), false), false)
    else (Outcome(r', false), a.shouldContinue)
  }

  function RunBrainStep(r: Run, step: Step, w: World): Outcome {
    var a := w.answers(step.position);
    var r' := r.(history := r.history + [Ran(step.position)], status := AwaitingLlm, current := step.position);
    if !w.dialogExists then Outcome(r, true)
    else if a.raises then Outcome(r', true)
    else if a.terminal then Outcome(r'.(status := if a.handoff then HandedOff else Completed), false)
    else if a.reply then Outcome(ScheduleReply(r', step.position), false)
    else Outcome(r'.(status := AwaitingReply, awaiting := Some(step.position)), false)
  }

  function RunLlmStep(r: Run, step: Step, w: World): Outcome {
    var a := w.answers(step.position);
    var r' := r.(history := r.history + [Ran(step.position)], status := AwaitingLlm, current := step.position);
    if !w.dialogExists then Outcome(r, true)
    else if a.raises then Outcome(r', true)
    else if a.handoff then Outcome(r'.(status := HandedOff), false)
    else if a.reply then Outcome(r'.(status := Completed, jobs := r'.jobs + [Job(None, Queued)]), false)
    else Outcome(r'.(status := Completed), false)
  }

  // One iteration of process_next_steps; the flag says whether the loop goes on.
  function ProcessStep(r: Run, step: Step, w: World): (Outcome, bool) {
    match step.stepType
    case FixedMessage =>
      var o := ScheduleFixedMessage(r, step, w);
      if o.raised then (o, false)
      else if step.waitForReply then
        (Outcome(o.run.(status := WaitingOutbound, awaiting := Some(step.position)), false), false)
      else (o, true)
    case InterestGate => RunInterestGate(r, step, w)
    case BrainTurn => (RunBrainStep(r, step, w), false)
    case LlmDecision => (RunLlmStep(r, step, w), false)
    case Unsupported => (Outcome(r, true), false)
  }

  function ProcessList(r: Run, steps: seq<Step>, w: World): Outcome
    decreases |steps|
  {
    if steps == [] then Outcome(r.(status := Completed), false)
    else
      var (o, goOn) := ProcessStep(r, steps[0], w);
      if goOn then ProcessList(o.run, steps[1..], w) else o
  }

  // The steps that lie beyond a position, in order.
  function StepsAfter(steps: seq<Step>, position: int): seq<Step> {
    if steps == [] then []
    else if steps[0].position > position then [steps[0]] + StepsAfter(steps[1..], position)
    else StepsAfter(steps[1..], position)
  }

  function ProcessNextSteps(r: Run, steps: seq<Step>, w: World): Outcome {
    if r.status in {Completed, Failed, HandedOff} then Outcome(r, false)
    else ProcessList(r, StepsAfter(steps, r.current), w)
  }

  // ---- Entry points ----

  function Start(r: Run, steps: seq<Step>, w: World): Outcome {
    ProcessNextSteps(r.(status := Active), steps, w)
  }

  predicate Ongoing(s: RunStatus) {
    s in {Active, WaitingOutbound, AwaitingReply, AwaitingLlm}
  }

  // _reopen_latest_nonterminal_run
  function Reopen(r: Run, steps: seq<Step>, leadOpen: bool): Run {
    var step := StepAt(steps, r.current);
    if leadOpen && r.status in {Completed, Failed} && step.Some? && step.value.stepType in {BrainTurn, LlmDecision}
    then r.(status := AwaitingReply, awaiting := Some(r.current))
    else r
  }

  function HandleInboundMessage(r: Run, steps: seq<Step>, leadOpen: bool, w: World): Outcome {
    var r1 := if Ongoing(r.status) then r else Reopen(r, steps, leadOpen);
    if r1.status != AwaitingReply then Outcome(r1, false)
    else if r1.awaiting.None? then ProcessNextSteps(r1.(status := Active), steps, w)
    else
      var p := r1.awaiting.value;
      var step := StepAt(steps, p);
      var r2 := r1.(awaiting := None, status := Active, current := p, history := r1.history + [Consumed(p)]);
      if step.Some? && step.value.stepType in {LlmDecision, BrainTurn} then RunBrainStep(r2, step.value, w)
      else if step.Some? && step.value.stepType == InterestGate then
        var (o, goOn) := RunInterestGate(r2, step.value, w);
        if goOn then ProcessNextSteps(o.run, steps, w) else o
      else ProcessNextSteps(r2, steps, w)
  }

  // mark_outbound_sent, for a job of the step at the given position
  function MarkOutboundSent(r: Run, steps: seq<Step>, position: Option<int>): Run {
    if position.None? then r
    else
      var step := StepAt(steps, position.value);
      if step.None? || !step.value.waitForReply || r.awaiting != position then r
      else if r.status in {Active, WaitingOutbound} then r.(status := AwaitingReply)
      else r
  }

  function RecoverWaitingOutbound(r: Run, steps: seq<Step>, w: World): Outcome {
    if r.awaiting.None? then ProcessNextSteps(r.(status := Active), steps, w)
    else
      var p := r.awaiting.value;
      if StepAt(steps, p).None? then Outcome(r.(status := Failed), false)
      else
        match LatestJob(r.jobs, p)
        case None =>
          ProcessNextSteps(r.(status := Active, current := if r.current < p - 1 then r.current else p - 1), steps, w)
        case Some(job) =>
          if job.status == Sent then Outcome(r.(status := AwaitingReply), false)
          else if job.status in {Queued, Retry, Processing} then Outcome(r, false)
          else Outcome(r.(status := Failed), false)
  }

  function RecoverAwaitingLlm(r: Run, steps: seq<Step>, w: World): Outcome {
    var step := StepAt(steps, r.current);
    var o :=
      if step.Some? && step.value.stepType == BrainTurn then RunBrainStep(r, step.value, w)
      else if step.Some? && step.value.stepType == LlmDecision then RunLlmStep(r, step.value, w)
      else ProcessNextSteps(r, steps, w);
    if o.raised then Outcome(o.run.(status := Failed), true) else o
  }

  // ---- Runs ----

  datatype Event =
    | Started(w: World)
    | InboundMessage(leadOpen: bool, w: World)
    | OutboundSent(job: nat)
    | JobChanged(job: nat, status: JobStatus)   // the outbound worker, a cancellation, ...
    | RecoveredWaiting(w: World)
    | RecoveredLlm(w: World)

  // recover_stale_runs picks runs by status; everything else is called as is.
  function Apply(r: Run, steps: seq<Step>, e: Event): Run {
    match e
    case Started(w) => Start(r, steps, w).run
    case InboundMessage(leadOpen, w) => HandleInboundMessage(r, steps, leadOpen, w).run
    case OutboundSent(j) => if j < |r.jobs| then MarkOutboundSent(r, steps, r.jobs[j].step) else r
    case JobChanged(j, s) => if j < |r.jobs| then r.(jobs := r.jobs[j := r.jobs[j].(status := s)]) else r
    case RecoveredWaiting(w) => if r.status == WaitingOutbound then RecoverWaitingOutbound(r, steps, w).run else r
    case RecoveredLlm(w) => if r.status == AwaitingLlm then RecoverAwaitingLlm(r, steps, w).run else r
  }

  function Play(steps: seq<Step>, evs: seq<Event>): Run {
    if evs == [] then NEW_RUN else Apply(Play(steps, evs[..|evs| - 1]), steps, evs[|evs| - 1])
  }
}
