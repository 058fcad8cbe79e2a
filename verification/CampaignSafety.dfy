// What every run of a campaign keeps, whatever order its entry points are called in.
module CampaignSafety {
  import opened Basics
  import opened CampaignSequence
  import opened CampaignJobs

  predicate WaitMessage(s: Step) {
    s.stepType == FixedMessage && s.waitForReply
  }

  predicate StepAct(a: Act) {
    a.Scheduled? || a.Ran?
  }

  // Message q was scheduled, and later a reply was consumed while q was the awaited step.
  ghost predicate Answered(h: seq<Act>, q: int) {
    exists i, j :: 0 <= i < j < |h| && h[i] == Scheduled(q) && h[j] == Consumed(q)
  }

  ghost predicate AllAnsweredBelow(steps: seq<Step>, h: seq<Act>, position: int) {
    forall s <- steps :: WaitMessage(s) && 0 < s.position < position ==> Answered(h, s.position)
  }

  // The safety property: nothing is scheduled or run past a message that waits for a reply
  // before that message was scheduled and its reply consumed.
  ghost predicate ReplyFirst(steps: seq<Step>, h: seq<Act>) {
    forall k :: 0 <= k < |h| && StepAct(h[k]) ==> AllAnsweredBelow(steps, h[..k], h[k].position)
  }

  // ---- The invariant ----

  // No message from position lo to position hi waits for a reply.
  ghost predicate NoWaitFrom(steps: seq<Step>, lo: int, hi: int) {
    forall s <- steps :: WaitMessage(s) ==> !(lo <= s.position <= hi)
  }

  // Every message up to the current position has its job; one further on can have a job only if
  // the run was taken back, and then no message in between waits for a reply.
  ghost predicate JobsFit(steps: seq<Step>, r: Run) {
    forall s <- steps :: s.stepType == FixedMessage ==>
      && (0 < s.position <= r.current ==> HasJobFor(r.jobs, s.position))
      && (HasJobFor(r.jobs, s.position) ==>
            && 0 < s.position && Scheduled(s.position) in r.history
            && (r.current < s.position ==> NoWaitFrom(steps, r.current, s.position)))
  }

  // No reply to a message ahead has been consumed, nor to one still awaited.
  ghost predicate NothingConsumedAhead(steps: seq<Step>, r: Run) {
    forall s <- steps :: WaitMessage(s) && Consumed(s.position) in r.history ==>
      s.position <= r.current && (s.position == r.current ==> r.awaiting != Some(r.current))
  }

  ghost predicate Core(steps: seq<Step>, r: Run) {
    && 0 <= r.current
    && ReplyFirst(steps, r.history)
    && JobsFit(steps, r)
    && NothingConsumedAhead(steps, r)
    && AllAnsweredBelow(steps, r.history, r.current)
  }

  ghost predicate CurrentAnswered(steps: seq<Step>, r: Run) {
    AllAnsweredBelow(steps, r.history, r.current + 1)
  }

  ghost predicate Ready(steps: seq<Step>, r: Run) {
    Core(steps, r) && CurrentAnswered(steps, r)
  }

  // What is awaited, if anything, is a step that is no message. A start can have left it behind,
  // but never behind a message that waits for a reply.
  ghost predicate Calm(steps: seq<Step>, r: Run) {
    r.awaiting.Some? ==>
      var p := r.awaiting.value;
      && 0 <= p <= r.current && StepAt(steps, p).Some? && StepAt(steps, p).value.stepType != FixedMessage
      && NoWaitFrom(steps, p, r.current)
  }

  // The run awaits the reply to the message at the current position.
  ghost predicate AtMessage(steps: seq<Step>, r: Run) {
    && r.awaiting == Some(r.current) && 0 < r.current
    && StepAt(steps, r.current).Some? && WaitMessage(StepAt(steps, r.current).value)
  }

  ghost predicate StatusFits(steps: seq<Step>, r: Run) {
    && (r.status == WaitingOutbound ==> r.awaiting == Some(r.current) && HasJobFor(r.jobs, r.current))
    && (r.status == AwaitingReply ==> r.awaiting.Some?)
    && (r.status == AwaitingLlm ==>
          StepAt(steps, r.current).Some? && StepAt(steps, r.current).value.stepType in {BrainTurn, LlmDecision})
  }

  ghost predicate Inv(steps: seq<Step>, r: Run) {
    && Core(steps, r) && StatusFits(steps, r)
    && ((Calm(steps, r) && CurrentAnswered(steps, r)) || AtMessage(steps, r))
  }

  // ---- History ----

  lemma AnsweredStays(h: seq<Act>, a: Act, q: int)
    requires Answered(h, q)
    ensures Answered(h + [a], q)
  {
    var i, j :| 0 <= i < j < |h| && h[i] == Scheduled(q) && h[j] == Consumed(q);
    assert (h + [a])[i] == Scheduled(q) && (h + [a])[j] == Consumed(q);
  }

  lemma AllAnsweredStays(steps: seq<Step>, h: seq<Act>, a: Act, position: int)
    requires AllAnsweredBelow(steps, h, position)
    ensures AllAnsweredBelow(steps, h + [a], position)
  {
    forall s | s in steps && WaitMessage(s) && 0 < s.position < position ensures Answered(h + [a], s.position) {
      AnsweredStays(h, a, s.position);
    }
  }

  lemma ReplyFirstSnoc(steps: seq<Step>, h: seq<Act>, a: Act)
    ensures ReplyFirst(steps, h + [a]) <==>
            ReplyFirst(steps, h) && (StepAct(a) ==> AllAnsweredBelow(steps, h, a.position))
  {
    var h' := h + [a];
    assert h'[..|h|] == h && h'[|h|] == a;
    forall k | 0 <= k < |h| ensures h'[..k] == h[..k] && h'[k] == h[k] {
    }
    if ReplyFirst(steps, h') {
      forall k | 0 <= k < |h| && StepAct(h[k]) ensures AllAnsweredBelow(steps, h[..k], h[k].position) {
        assert StepAct(h'[k]);
      }
    }
  }

  // ---- One step ----

  lemma AnsweredUpTo(steps: seq<Step>, r: Run, s: Step)
    requires Ready(steps, r) && Within(steps, r, s)
    ensures AllAnsweredBelow(steps, r.history, s.position)
  {
  }

  // Going on to a step that is no message that waits keeps the job facts and what is awaited.
  lemma MovingKeeps(steps: seq<Step>, r: Run, s: Step, h: seq<Act>)
    requires Within(steps, r, s) && !WaitMessage(s) && JobsFit(steps, r) && Calm(steps, r)
    requires s.stepType == FixedMessage ==> HasJobFor(r.jobs, s.position)
    requires forall a <- r.history :: a in h
    ensures JobsFit(steps, r.(current := s.position, history := h)) &&
            Calm(steps, r.(current := s.position, history := h))
  {
    hide HasJobFor, StepAt;
  }

  // Running a gate, brain or LLM step, up to where the answer comes in.
  lemma RanKeeps(steps: seq<Step>, r: Run, s: Step)
    requires Ready(steps, r) && Calm(steps, r) && Within(steps, r, s) && s.stepType != FixedMessage
    ensures var h := r.history + [Ran(s.position)];
            && Ready(steps, r.(history := h)) && Calm(steps, r.(history := h))
            && Ready(steps, r.(history := h, current := s.position))
            && Calm(steps, r.(history := h, current := s.position))
  {
    var a := Ran(s.position);
    AnsweredUpTo(steps, r, s);
    ReplyFirstSnoc(steps, r.history, a);
    AllAnsweredStays(steps, r.history, a, r.current + 1);
    AllAnsweredStays(steps, r.history, a, s.position);
    MovingKeeps(steps, r, s, r.history + [a]);
    hide ReplyFirst, HasJobFor, StepAt, NoWaitFrom;
  }

  // Scheduling the next fixed message for the first time.
  lemma ScheduledKeeps(steps: seq<Step>, r: Run, s: Step)
    requires Ready(steps, r) && Calm(steps, r) && Within(steps, r, s) && s.stepType == FixedMessage &&
             r.current < s.position
    requires !HasJobFor(r.jobs, s.position)
    ensures var r' := r.(jobs := r.jobs + [Job(Some(s.position), Queued)],
                         history := r.history + [Scheduled(s.position)], current := s.position);
            && HasJobFor(r'.jobs, s.position)
            && (!s.waitForReply ==> Ready(steps, r') && Calm(steps, r'))
            && (s.waitForReply ==> Core(steps, r'.(awaiting := Some(s.position))))
  {
    var a := Scheduled(s.position);
    var job := Job(Some(s.position), Queued);
    AnsweredUpTo(steps, r, s);
    ReplyFirstSnoc(steps, r.history, a);
    AllAnsweredStays(steps, r.history, a, s.position);
    forall p: int ensures HasJobFor(r.jobs + [job], p) <==> HasJobFor(r.jobs, p) || p == s.position {
      OneMoreJob(r.jobs, job, p);
    }
    hide ReplyFirst, HasJobFor, StepAt, Answered;
  }

  lemma OneMoreJob(jobs: seq<Job>, job: Job, position: int)
    ensures HasJobFor(jobs + [job], position) <==> HasJobFor(jobs, position) || job.step == Some(position)
  {
    if HasJobFor(jobs, position) {
      var j :| j in jobs && j.step == Some(position);
      assert j in jobs + [job];
    }
    assert job in jobs + [job];
  }

  // A reply job belongs to a step that is no fixed message, or to none.
  lemma ReplyJobKeeps(steps: seq<Step>, r: Run, position: Option<int>)
    requires Ready(steps, r)
    requires forall t <- steps :: t.stepType == FixedMessage ==> position != Some(t.position)
    ensures var r' := r.(jobs := r.jobs + [Job(position, Queued)]);
            Ready(steps, r') && (position.Some? ==> HasJobFor(r'.jobs, position.value))
  {
    var job := Job(position, Queued);
    forall p: int ensures HasJobFor(r.jobs + [job], p) <==> HasJobFor(r.jobs, p) || job.step == Some(p) {
      OneMoreJob(r.jobs, job, p);
    }
    hide HasJobFor, ReplyFirst, AllAnsweredBelow;
  }

  // Status and awaited position may change freely while the current step is no fixed message.
  lemma FieldsKeep(steps: seq<Step>, r: Run, s: Step, status: RunStatus, awaiting: Option<int>)
    requires Ready(steps, r) && s in steps && s.position == r.current && s.stepType != FixedMessage
    requires forall t <- steps :: t.position == s.position ==> t == s
    ensures Ready(steps, r.(status := status, awaiting := awaiting))
    ensures StepAt(steps, r.current) == Some(s) && awaiting == Some(r.current) ==>
            Calm(steps, r.(status := status, awaiting := awaiting))
    ensures Calm(steps, r) && awaiting == r.awaiting ==> Calm(steps, r.(status := status, awaiting := awaiting))
  {
    hide HasJobFor, ReplyFirst, Answered, StepAt;
  }

  lemma GateKeeps(steps: seq<Step>, r: Run, s: Step, w: World)
    requires Ready(steps, r) && Calm(steps, r) && Within(steps, r, s) && s.stepType == InterestGate &&
             r.status == Active
    ensures var (o, goOn) := RunInterestGate(r, s, w);
            && Inv(steps, o.run)
            && (goOn ==> Ready(steps, o.run) && Calm(steps, o.run))
            && (goOn ==> o.run.status == Active && o.run.current == s.position)
  {
    RanKeeps(steps, r, s);
    var r' := r.(history := r.history + [Ran(s.position)], current := s.position);
    ReplyJobKeeps(steps, r', Some(s.position));
    FieldsKeep(steps, r', s, Completed, r'.awaiting);
    FieldsKeep(steps, r'.(jobs := r'.jobs + [Job(Some(s.position), Queued)]), s, WaitingOutbound, Some(s.position));
    hide Core, Calm, CurrentAnswered, HasJobFor, StepAt;
  }

  lemma BrainKeeps(steps: seq<Step>, r: Run, s: Step, w: World)
    requires Ready(steps, r) && Calm(steps, r) && Within(steps, r, s) && s.stepType in {BrainTurn, LlmDecision}
    requires StatusFits(steps, r)
    ensures Inv(steps, RunBrainStep(r, s, w).run)
  {
    RanKeeps(steps, r, s);
    var r' := r.(history := r.history + [Ran(s.position)], current := s.position);
    ReplyJobKeeps(steps, r', Some(s.position));
    var o := RunBrainStep(r, s, w).run;
    var jobs := if o.status == WaitingOutbound then r'.jobs + [Job(Some(s.position), Queued)] else r'.jobs;
    FieldsKeep(steps, r'.(jobs := jobs), s, o.status, o.awaiting);
    hide Core, Calm, CurrentAnswered, HasJobFor, StepAt;
  }

  lemma LlmKeeps(steps: seq<Step>, r: Run, s: Step, w: World)
    requires Ready(steps, r) && Calm(steps, r) && Within(steps, r, s) && s.stepType == LlmDecision
    requires StatusFits(steps, r)
    ensures Inv(steps, RunLlmStep(r, s, w).run)
  {
    RanKeeps(steps, r, s);
    var r' := r.(history := r.history + [Ran(s.position)], current := s.position);
    ReplyJobKeeps(steps, r', None);
    var o := RunLlmStep(r, s, w).run;
    var a := w.answers(s.position);
    var jobs := if !a.raises && !a.handoff && a.reply then r'.jobs + [Job(None, Queued)] else r'.jobs;
    FieldsKeep(steps, r'.(jobs := jobs), s, o.status, o.awaiting);
    hide Core, Calm, CurrentAnswered, HasJobFor, StepAt;
  }

  // A message that already has a job is passed; it is none that waits.
  lemma PassedKeeps(steps: seq<Step>, r: Run, s: Step)
    requires Ready(steps, r) && Calm(steps, r) && Within(steps, r, s) && s.stepType == FixedMessage &&
             r.current < s.position
    requires HasJobFor(r.jobs, s.position)
    ensures !s.waitForReply
    ensures Ready(steps, r.(current := s.position)) && Calm(steps, r.(current := s.position))
  {
    AnsweredUpTo(steps, r, s);
    MovingKeeps(steps, r, s, r.history);
    hide HasJobFor, ReplyFirst, Answered, StepAt, JobsFit, Calm;
  }

  lemma FixedKeeps(steps: seq<Step>, r: Run, s: Step, w: World)
    requires Ready(steps, r) && Calm(steps, r) && Within(steps, r, s) && s.stepType == FixedMessage &&
             r.current < s.position
    requires r.status == Active
    ensures var (o, goOn) := ProcessStep(r, s, w);
            && Inv(steps, o.run)
            && (goOn ==> Ready(steps, o.run) && Calm(steps, o.run))
            && (goOn ==> o.run.status == Active && o.run.current == s.position)
  {
    if HasJobFor(r.jobs, s.position) {
      PassedKeeps(steps, r, s);
    } else {
      ScheduledKeeps(steps, r, s);
      if s.waitForReply {
        StatusKeeps(steps, r.(jobs := r.jobs + [Job(Some(s.position), Queued)],
                              history := r.history + [Scheduled(s.position)], current := s.position,
                              awaiting := Some(s.position)), WaitingOutbound);
      }
    }
    hide Core, Calm, CurrentAnswered, HasJobFor, StepAt;
  }

  lemma StatusKeeps(steps: seq<Step>, r: Run, status: RunStatus)
    ensures Core(steps, r.(status := status)) == Core(steps, r)
    ensures CurrentAnswered(steps, r.(status := status)) == CurrentAnswered(steps, r)
    ensures Calm(steps, r.(status := status)) == Calm(steps, r)
  {
    hide ReplyFirst, AllAnsweredBelow, HasJobFor, StepAt, NoWaitFrom;
  }

  lemma StepKeeps(steps: seq<Step>, r: Run, s: Step, w: World)
    requires Ready(steps, r) && Calm(steps, r) && Within(steps, r, s) && r.current < s.position && r.status == Active
    ensures var (o, goOn) := ProcessStep(r, s, w);
            && Inv(steps, o.run)
            && (goOn ==> Ready(steps, o.run) && Calm(steps, o.run))
            && (goOn ==> o.run.status == Active && o.run.current == s.position)
  {
    match s.stepType {
      case FixedMessage => FixedKeeps(steps, r, s, w);
      case InterestGate => GateKeeps(steps, r, s, w);
      case BrainTurn => BrainKeeps(steps, r, s, w);
      case LlmDecision => LlmKeeps(steps, r, s, w);
      case Unsupported =>
    }
  }

  // process_next_steps of an active run with everything up to the current step answered.
  lemma {:induction false} ProcessListKeeps(steps: seq<Step>, r: Run, w: World)
    requires Ordered(steps) && Ready(steps, r) && Calm(steps, r) && r.status == Active
    ensures Inv(steps, ProcessList(r, StepsAfter(steps, r.current), w).run)
    decreases |StepsAfter(steps, r.current)|
  {
    hide Ready, Calm, Inv, Within, ProcessStep;
    var rest := StepsAfter(steps, r.current);
    if rest == [] {
      SettledKeeps(steps, r, Completed);
    } else {
      NextIsNext(steps, r.current);
      NextIsWithin(steps, r);
      StepKeeps(steps, r, rest[0], w);
      var (o, goOn) := ProcessStep(r, rest[0], w);
      if goOn {
        ProcessListKeeps(steps, o.run, w);
      }
    }
  }

  lemma SettledKeeps(steps: seq<Step>, r: Run, status: RunStatus)
    requires (Ready(steps, r) && Calm(steps, r)) || Inv(steps, r)
    requires status in {Active, Completed, Failed, HandedOff}
    ensures Inv(steps, r.(status := status))
  {
    StatusKeeps(steps, r, status);
    hide Core, Calm, CurrentAnswered, HasJobFor;
  }

  // ---- Entry points ----

  // Will a started run schedule or run anything?
  predicate NextStepActs(steps: seq<Step>, r: Run, w: World) {
    var next := StepsAfter(steps, r.current);
    && next != [] && w.dialogExists
    && next[0].stepType != Unsupported && (next[0].stepType == FixedMessage ==> next[0].hasText)
  }

  predicate AwaitsMessage(steps: seq<Step>, r: Run) {
    r.awaiting.Some? && StepAt(steps, r.current).Some? && WaitMessage(StepAt(steps, r.current).value)
  }

  lemma AwaitsMessageMeans(steps: seq<Step>, r: Run)
    requires Inv(steps, r)
    ensures AwaitsMessage(steps, r) <==> AtMessage(steps, r)
    ensures !AwaitsMessage(steps, r) ==> Ready(steps, r) && Calm(steps, r)
  {
    hide Core, CurrentAnswered, HasJobFor;
  }

  // A start that the run can bear: it does not await a message, or nothing happens.
  lemma StartKeeps(steps: seq<Step>, r: Run, w: World)
    requires Ordered(steps) && Inv(steps, r) && !(AwaitsMessage(steps, r) && NextStepActs(steps, r, w))
    ensures Inv(steps, Start(r, steps, w).run)
  {
    var r' := r.(status := Active);
    SettledKeeps(steps, r, Active);
    if AwaitsMessage(steps, r) {
      SettledKeeps(steps, r, Completed);
      hide Inv;
    } else {
      AwaitsMessageMeans(steps, r);
      StatusKeeps(steps, r, Active);
      hide Core, Calm, CurrentAnswered, Inv;
      ProcessListKeeps(steps, r', w);
    }
  }

  lemma ReopenKeeps(steps: seq<Step>, r: Run, leadOpen: bool)
    requires Ordered(steps) && Inv(steps, r)
    ensures Inv(steps, Reopen(r, steps, leadOpen))
  {
    if Reopen(r, steps, leadOpen) != r {
      AwaitsMessageMeans(steps, r);
      FieldsKeep(steps, r, StepAt(steps, r.current).value, AwaitingReply, Some(r.current));
      hide Core, Calm, CurrentAnswered, HasJobFor;
    }
  }

  function Consume(r: Run): Run
    requires r.awaiting.Some?
  {
    r.(awaiting := None, status := Active, current := r.awaiting.value,
        history := r.history + [Consumed(r.awaiting.value)])
  }

  // Consuming the awaited reply: the awaited message, if it is one, is answered now.
  lemma ConsumeAtMessage(steps: seq<Step>, r: Run)
    requires Ordered(steps) && Core(steps, r) && AtMessage(steps, r)
    ensures Ready(steps, Consume(r)) && Calm(steps, Consume(r))
  {
    var a := Consumed(r.current);
    var h := r.history + [a];
    ReplyFirstSnoc(steps, r.history, a);
    AllAnsweredStays(steps, r.history, a, r.current);
    var q := StepAt(steps, r.current).value;
    assert Scheduled(r.current) in r.history;
    var i :| 0 <= i < |r.history| && r.history[i] == Scheduled(r.current);
    assert h[i] == Scheduled(r.current) && h[|r.history|] == a;
    assert Answered(h, r.current);
    assert forall b <- r.history :: b in h;
    hide HasJobFor, ReplyFirst, Answered;
  }

  // The run goes back to the awaited step; nothing that waits lies in between.
  lemma ConsumeCalm(steps: seq<Step>, r: Run)
    requires Ready(steps, r) && Calm(steps, r) && r.awaiting.Some?
    ensures Ready(steps, Consume(r)) && Calm(steps, Consume(r))
  {
    var a := Consumed(r.awaiting.value);
    ReplyFirstSnoc(steps, r.history, a);
    AllAnsweredStays(steps, r.history, a, r.current + 1);
    assert forall b <- r.history :: b in r.history + [a];
    hide HasJobFor, ReplyFirst, Answered, StepAt;
  }

  lemma CurrentIsWithin(steps: seq<Step>, r: Run)
    requires Ordered(steps) && StepAt(steps, r.current).Some?
    ensures Within(steps, r, StepAt(steps, r.current).value)
  {
  }

  lemma ConsumeKeeps(steps: seq<Step>, r: Run)
    requires Ordered(steps) && Inv(steps, r) && r.awaiting.Some?
    ensures var r' := Consume(r);
            && Ready(steps, r') && Calm(steps, r') && StatusFits(steps, r')
            && StepAt(steps, r'.current).Some? && Within(steps, r', StepAt(steps, r'.current).value)
  {
    hide Core, CurrentAnswered, HasJobFor;
    if AtMessage(steps, r) {
      ConsumeAtMessage(steps, r);
    } else {
      ConsumeCalm(steps, r);
    }
    CurrentIsWithin(steps, Consume(r));
  }

  lemma InboundKeeps(steps: seq<Step>, r: Run, leadOpen: bool, w: World)
    requires Ordered(steps) && Inv(steps, r)
    ensures Inv(steps, HandleInboundMessage(r, steps, leadOpen, w).run)
  {
    hide Core, CurrentAnswered, Calm, AtMessage, HasJobFor;
    ReopenKeeps(steps, r, leadOpen);
    var r1 := if Ongoing(r.status) then r else Reopen(r, steps, leadOpen);
    if r1.status == AwaitingReply {
      assert r1.awaiting.Some?;
      ConsumeKeeps(steps, r1);
      var r2 := Consume(r1);
      var step := StepAt(steps, r2.current).value;
      hide Inv, Ready, Calm, StatusFits, Within, RunInterestGate, RunBrainStep, ProcessList, Reopen;
      if step.stepType in {LlmDecision, BrainTurn} {
        BrainKeeps(steps, r2, step, w);
      } else if step.stepType == InterestGate {
        GateKeeps(steps, r2, step, w);
        var (o, goOn) := RunInterestGate(r2, step, w);
        if goOn {
          ProcessListKeeps(steps, o.run, w);
        }
      } else {
        ProcessListKeeps(steps, r2, w);
      }
    }
  }

  lemma SentKeeps(steps: seq<Step>, r: Run, position: Option<int>)
    requires Inv(steps, r)
    ensures Inv(steps, MarkOutboundSent(r, steps, position))
  {
    StatusKeeps(steps, r, AwaitingReply);
    hide Core, Calm, CurrentAnswered, HasJobFor;
  }

  lemma JobChangeKeeps(steps: seq<Step>, r: Run, i: nat, status: JobStatus)
    requires Inv(steps, r) && i < |r.jobs|
    ensures Inv(steps, r.(jobs := r.jobs[i := r.jobs[i].(status := status)]))
  {
    var jobs' := r.jobs[i := r.jobs[i].(status := status)];
    forall p: int ensures HasJobFor(jobs', p) <==> HasJobFor(r.jobs, p) {
      JobsForStatusChange(r.jobs, i, status, p);
      HasJobIff(r.jobs, p);
      HasJobIff(jobs', p);
    }
    hide HasJobFor, ReplyFirst, AllAnsweredBelow, StepAt, NoWaitFrom;
  }

  lemma RecoverWaitingKeeps(steps: seq<Step>, r: Run, w: World)
    requires Ordered(steps) && Inv(steps, r) && r.status == WaitingOutbound
    ensures Inv(steps, RecoverWaitingOutbound(r, steps, w).run)
    ensures RecoverWaitingOutbound(r, steps, w).run.jobs == r.jobs
    ensures RecoverWaitingOutbound(r, steps, w).run.history == r.history
  {
    var r' := RecoverWaitingOutbound(r, steps, w).run;
    assert StepAt(steps, r.current).Some?;
    assert r' == r.(status := r'.status) && r'.status in {WaitingOutbound, AwaitingReply, Failed};
    StatusKeeps(steps, r, r'.status);
    hide Core, Calm, CurrentAnswered, HasJobFor;
  }

  // Recovery of an LLM run always runs a brain or LLM step again, and schedules no fixed message.
  lemma RecoverLlmKeeps(steps: seq<Step>, r: Run, w: World)
    requires Ordered(steps) && Inv(steps, r) && r.status == AwaitingLlm
    ensures Inv(steps, RecoverAwaitingLlm(r, steps, w).run)
    ensures RecoverAwaitingLlm(r, steps, w).run.current == r.current
    ensures RecoverAwaitingLlm(r, steps, w).run.history ==
            if w.dialogExists then r.history + [Ran(r.current)] else r.history
  {
    var step := StepAt(steps, r.current).value;
    CurrentIsWithin(steps, r);
    AwaitsMessageMeans(steps, r);
    hide Core, Calm, CurrentAnswered, Inv;
    if step.stepType == BrainTurn {
      BrainKeeps(steps, r, step, w);
      SettledKeeps(steps, RunBrainStep(r, step, w).run, Failed);
    } else {
      LlmKeeps(steps, r, step, w);
      SettledKeeps(steps, RunLlmStep(r, step, w).run, Failed);
    }
  }

  // ---- Whole runs ----

  // The start cannot skip a reply: the run awaits the reply to no message, or nothing will happen.
  ghost predicate SafeStart(steps: seq<Step>, r: Run, e: Event) {
    e.Started? ==> !(AwaitsMessage(steps, r) && NextStepActs(steps, r, e.w))
  }

  lemma ApplyKeeps(steps: seq<Step>, r: Run, e: Event)
    requires Ordered(steps) && Inv(steps, r) && SafeStart(steps, r, e)
    ensures Inv(steps, Apply(r, steps, e))
  {
    hide Inv;
    match e {
      case Started(w) => StartKeeps(steps, r, w);
      case InboundMessage(leadOpen, w) => InboundKeeps(steps, r, leadOpen, w);
      case OutboundSent(j) => if j < |r.jobs| { SentKeeps(steps, r, r.jobs[j].step); }
      case JobChanged(j, s) => if j < |r.jobs| { JobChangeKeeps(steps, r, j, s); }
      case RecoveredWaiting(w) => if r.status == WaitingOutbound { RecoverWaitingKeeps(steps, r, w); }
      case RecoveredLlm(w) => if r.status == AwaitingLlm { RecoverLlmKeeps(steps, r, w); }
    }
  }

  ghost predicate StartsSafely(steps: seq<Step>, evs: seq<Event>) {
    forall i :: 0 <= i < |evs| ==> SafeStart(steps, Play(steps, evs[..i]), evs[i])
  }

  lemma StartsSafelySnoc(steps: seq<Step>, evs: seq<Event>)
    requires evs != []
    ensures var n := |evs| - 1;
            StartsSafely(steps, evs) <==>
            StartsSafely(steps, evs[..n]) && SafeStart(steps, Play(steps, evs[..n]), evs[n])
  {
    hide SafeStart, Play;
    var n := |evs| - 1;
    forall i | 0 <= i < n ensures evs[..n][..i] == evs[..i] && evs[..n][i] == evs[i] {
    }
  }

  lemma {:induction false} EveryRunKeepsInv(steps: seq<Step>, evs: seq<Event>)
    requires Ordered(steps) && StartsSafely(steps, evs)
    ensures Inv(steps, Play(steps, evs))
  {
    hide Inv, Apply, StartsSafely, SafeStart;
    if evs == [] {
      NewRunFits(steps);
    } else {
      var n := |evs| - 1;
      StartsSafelySnoc(steps, evs);
      EveryRunKeepsInv(steps, evs[..n]);
      ApplyKeeps(steps, Play(steps, evs[..n]), evs[n]);
    }
  }

  lemma NewRunFits(steps: seq<Step>)
    ensures Inv(steps, NEW_RUN)
  {
  }

  // ---- Starts that skip a reply ----

  lemma {:induction false} HistoryGrows(r: Run, list: seq<Step>, w: World)
    ensures r.history <= ProcessList(r, list, w).run.history
    decreases |list|
  {
    if list != [] {
      var (o, goOn) := ProcessStep(r, list[0], w);
      if goOn {
        HistoryGrows(o.run, list[1..], w);
      }
    }
  }

  lemma ReplyFirstOfPrefix(steps: seq<Step>, h: seq<Act>, h': seq<Act>)
    requires h <= h' && ReplyFirst(steps, h')
    ensures ReplyFirst(steps, h)
  {
    forall k | 0 <= k < |h| && StepAct(h[k]) ensures AllAnsweredBelow(steps, h[..k], h[k].position) {
      assert h'[k] == h[k] && h'[..k] == h[..k];
    }
  }

  lemma StartSkips(steps: seq<Step>, r: Run, w: World)
    requires Ordered(steps) && Inv(steps, r) && AwaitsMessage(steps, r) && NextStepActs(steps, r, w)
    ensures !ReplyFirst(steps, Start(r, steps, w).run.history)
  {
    var r' := r.(status := Active);
    var rest := StepsAfter(steps, r.current);
    var q := StepAt(steps, r.current).value;
    var s := rest[0];
    NextIsNext(steps, r.current);
    AwaitsMessageMeans(steps, r);
    assert !HasJobFor(r.jobs, s.position) || s.stepType != FixedMessage;
    var a := if s.stepType == FixedMessage then Scheduled(s.position) else Ran(s.position);
    var (o, goOn) := ProcessStep(r', s, w);
    assert r.history + [a] <= o.run.history;
    assert !Answered(r.history, q.position);
    ReplyFirstSnoc(steps, r.history, a);
    var h := Start(r, steps, w).run.history;
    hide ReplyFirst, Core, ProcessStep;
    assert ProcessList(r', rest, w) == if goOn then ProcessList(o.run, rest[1..], w) else o;
    if goOn {
      HistoryGrows(o.run, rest[1..], w);
    }
    if ReplyFirst(steps, h) {
      ReplyFirstOfPrefix(steps, r.history + [a], h);
      assert false;
    }
  }

  lemma ApplyGrowsHistory(steps: seq<Step>, r: Run, e: Event)
    ensures r.history <= Apply(r, steps, e).history
  {
    match e {
      case Started(w) => NextGrows(steps, r.(status := Active), w);
      case InboundMessage(leadOpen, w) => InboundGrows(steps, r, leadOpen, w);
      case RecoveredWaiting(w) =>
        if r.status == WaitingOutbound && r.awaiting.Some? {
          var p := r.awaiting.value;
          NextGrows(steps, r.(status := Active, current := if r.current < p - 1 then r.current else p - 1), w);
        } else {
          NextGrows(steps, r.(status := Active), w);
        }
      case RecoveredLlm(w) => NextGrows(steps, r, w);
      case OutboundSent(_) =>
      case JobChanged(_, _) =>
    }
  }

  lemma NextGrows(steps: seq<Step>, r: Run, w: World)
    ensures r.history <= ProcessNextSteps(r, steps, w).run.history
  {
    HistoryGrows(r, StepsAfter(steps, r.current), w);
  }

  lemma InboundGrows(steps: seq<Step>, r: Run, leadOpen: bool, w: World)
    ensures r.history <= HandleInboundMessage(r, steps, leadOpen, w).run.history
  {
    var r1 := if Ongoing(r.status) then r else Reopen(r, steps, leadOpen);
    hide ProcessNextSteps;
    NextGrows(steps, r1.(status := Active), w);
    if r1.awaiting.Some? {
      var p := r1.awaiting.value;
      var r2 := r1.(awaiting := None, status := Active, current := p, history := r1.history + [Consumed(p)]);
      NextGrows(steps, r2, w);
      if StepAt(steps, p).Some? {
        NextGrows(steps, RunInterestGate(r2, StepAt(steps, p).value, w).0.run, w);
      }
    }
  }

  // Over whole runs: a message that waits for a reply is passed unanswered if and only if the run
  // is started, at some point, while it awaits the reply to a message and a next step can act.
  lemma {:induction false} ReplyFirstIff(steps: seq<Step>, evs: seq<Event>)
    requires Ordered(steps)
    ensures ReplyFirst(steps, Play(steps, evs).history) <==> StartsSafely(steps, evs)
  {
    hide Inv, Apply, StartsSafely, ReplyFirst, AwaitsMessage, NextStepActs;
    if evs == [] {
      NewRunFits(steps);
      InvIsReplyFirst(steps, NEW_RUN);
      NoStarts(steps);
    } else {
      var n := |evs| - 1;
      var r := Play(steps, evs[..n]);
      ReplyFirstIff(steps, evs[..n]);
      StartsSafelySnoc(steps, evs);
      ApplyGrowsHistory(steps, r, evs[n]);
      if ReplyFirst(steps, Play(steps, evs).history) {
        ReplyFirstOfPrefix(steps, r.history, Play(steps, evs).history);
      }
      if StartsSafely(steps, evs[..n]) {
        EveryRunKeepsInv(steps, evs[..n]);
        StartDecides(steps, r, evs[n]);
      }
    }
  }

  lemma NoStarts(steps: seq<Step>)
    ensures StartsSafely(steps, [])
  {
  }

  lemma InvIsReplyFirst(steps: seq<Step>, r: Run)
    requires Inv(steps, r)
    ensures ReplyFirst(steps, r.history)
  {
  }

  // From a state that keeps the invariant, one event is safe exactly if it is a safe start or none.
  lemma StartDecides(steps: seq<Step>, r: Run, e: Event)
    requires Ordered(steps) && Inv(steps, r)
    ensures ReplyFirst(steps, Apply(r, steps, e).history) <==> SafeStart(steps, r, e)
  {
    hide Inv, ReplyFirst, AwaitsMessage, NextStepActs;
    if SafeStart(steps, r, e) {
      ApplyKeeps(steps, r, e);
      InvIsReplyFirst(steps, Apply(r, steps, e));
    } else {
      StartSkips(steps, r, e.w);
    }
  }

  // In every run that is started safely nothing goes past a message that waits for a reply before
  // that message was scheduled and its reply consumed.
  lemma NothingPassesAnUnansweredMessage(steps: seq<Step>, evs: seq<Event>, q: Step, k: nat)
    requires Ordered(steps) && StartsSafely(steps, evs)
    requires var h := Play(steps, evs).history;
             q in steps && WaitMessage(q) && 0 < q.position &&
             k < |h| && StepAct(h[k]) && q.position < h[k].position
    ensures var h := Play(steps, evs).history;
            exists i, j :: 0 <= i < j < k && h[i] == Scheduled(q.position) && h[j] == Consumed(q.position)
  {
    ReplyFirstIff(steps, evs);
    var h := Play(steps, evs).history;
    hide Play;
    assert AllAnsweredBelow(steps, h[..k], h[k].position);
    assert Answered(h[..k], q.position);
    var i, j :| 0 <= i < j < k && h[..k][i] == Scheduled(q.position) && h[..k][j] == Consumed(q.position);
    assert h[i] == Scheduled(q.position) && h[j] == Consumed(q.position);
  }

  // A campaign of two messages, the first waiting for a reply: starting the run a second time
  // sends the second message at once.
  lemma SecondStartSkipsTheReply(w: World)
    requires w.dialogExists
    ensures var steps := [Step(1, FixedMessage, true, true), Step(2, FixedMessage, true, false)];
            !ReplyFirst(steps, Play(steps, [Started(w), Started(w)]).history)
  {
    var first, second := Step(1, FixedMessage, true, true), Step(2, FixedMessage, true, false);
    var steps := [first, second];
    var evs := [Started(w), Started(w)];
    assert evs[..1] == [Started(w)] && evs[..1][..0] == [];
    assert Play(steps, evs[..1][..0]) == NEW_RUN;
    assert Play(steps, evs[..1]) == Start(NEW_RUN, steps, w).run;
    TwoSteps(first, second, w);
    hide Play, Start, ReplyFirst, AwaitsMessage, NextStepActs;
    ReplyFirstIff(steps, evs);
    assert !SafeStart(steps, Play(steps, evs[..1]), evs[1]);
  }

  lemma TwoSteps(first: Step, second: Step, w: World)
    requires first == Step(1, FixedMessage, true, true) && second == Step(2, FixedMessage, true, false) &&
             w.dialogExists
    ensures var r := Start(NEW_RUN, [first, second], w).run;
            AwaitsMessage([first, second], r) && NextStepActs([first, second], r, w)
  {
    var steps := [first, second];
    assert steps[1..] == [second] && [second][1..] == [];
    assert StepsAfter([second], 0) == [second] && StepsAfter([second], 1) == [second];
    assert StepsAfter(steps, 0) == [first] + [second] == steps && StepsAfter(steps, 1) == [second];
    var r := Start(NEW_RUN, steps, w).run;
    assert r.current == 1 && r.awaiting == Some(1);
  }
}
