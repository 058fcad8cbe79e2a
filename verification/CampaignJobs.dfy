// The jobs of a campaign run: which messages have one, in every run, however it is started and moved.
module CampaignJobs {
  import opened Basics
  import opened CampaignSequence

  function JobsFor(jobs: seq<Job>, position: int): nat {
    if jobs == [] then 0
    else JobsFor(jobs[..|jobs| - 1], position) + if jobs[|jobs| - 1].step == Some(position) then 1 else 0
  }

  lemma JobsForSnoc(jobs: seq<Job>, j: Job, position: int)
    ensures JobsFor(jobs + [j], position) == JobsFor(jobs, position) + if j.step == Some(position) then 1 else 0
  {
    assert (jobs + [j])[..|jobs + [j]| - 1] == jobs;
  }

  lemma {:induction false} HasJobIff(jobs: seq<Job>, position: int)
    ensures HasJobFor(jobs, position) <==> JobsFor(jobs, position) > 0
  {
    if jobs != [] {
      HasJobIff(jobs[..|jobs| - 1], position);
      assert jobs == jobs[..|jobs| - 1] + [jobs[|jobs| - 1]];
    }
  }

  lemma {:induction false} JobsForStatusChange(jobs: seq<Job>, i: nat, status: JobStatus, position: int)
    requires i < |jobs|
    ensures JobsFor(jobs[i := jobs[i].(status := status)], position) == JobsFor(jobs, position)
  {
    var changed := jobs[i := jobs[i].(status := status)];
    var n := |jobs| - 1;
    if i < n {
      JobsForStatusChange(jobs[..n], i, status, position);
      assert changed[..n] == jobs[..n][i := jobs[i].(status := status)];
    } else {
      assert changed[..n] == jobs[..n];
    }
  }

  // ---- Positions ----

  // The next step after a position: nothing lies in between, and the rest comes after it.
  lemma {:induction false} NextIsNext(steps: seq<Step>, position: int)
    requires Ordered(steps) && StepsAfter(steps, position) != []
    ensures var next := StepsAfter(steps, position)[0];
            && next in steps && position < next.position
            && StepAt(steps, next.position) == Some(next)
            && StepsAfter(steps, next.position) == StepsAfter(steps, position)[1..]
            && (forall s <- steps :: s.position <= position || s == next || s.position > next.position)
  {
    assert Ordered(steps[1..]);
    if steps[0].position > position {
      AllAfter(steps[1..], steps[0].position);
      AllAfter(steps[1..], position);
    } else {
      NextIsNext(steps[1..], position);
    }
  }

  lemma {:induction false} AllAfter(steps: seq<Step>, position: int)
    requires Ordered(steps) && (forall s <- steps :: s.position > position)
    ensures StepsAfter(steps, position) == steps
  {
    if steps != [] {
      assert Ordered(steps[1..]);
      AllAfter(steps[1..], position);
    }
  }

  // ---- What every event keeps ----

  function Max(a: int, b: int): int {
    if a < b then b else a
  }

  // One job for each fixed message up to position h, none for the later ones.
  ghost predicate JobsUpTo(steps: seq<Step>, jobs: seq<Job>, h: int) {
    forall s <- steps :: s.stepType == FixedMessage ==>
      JobsFor(jobs, s.position) == if 0 < s.position <= h then 1 else 0
  }

  // The awaited step exists and lies behind; a waiting run has a job for it, and an LLM run stands
  // at a brain or LLM step.
  ghost predicate Awaits(steps: seq<Step>, r: Run) {
    && 0 <= r.current
    && (r.awaiting.Some? ==> 0 <= r.awaiting.value && StepAt(steps, r.awaiting.value).Some?)
    && (r.status == AwaitingReply ==> r.awaiting.Some?)
    && (r.status == WaitingOutbound ==> r.awaiting == Some(r.current) && HasJobFor(r.jobs, r.current))
    && (r.status == AwaitingLlm ==>
          StepAt(steps, r.current).Some? && StepAt(steps, r.current).value.stepType in {BrainTurn, LlmDecision})
  }

  // h is the furthest position the run has reached.
  ghost predicate Reached(steps: seq<Step>, r: Run, h: int) {
    && Awaits(steps, r) && JobsUpTo(steps, r.jobs, h)
    && r.current <= h && (r.awaiting.Some? ==> r.awaiting.value <= h)
  }

  // The step the run may take now: the next one, or the current one again.
  ghost predicate Within(steps: seq<Step>, r: Run, s: Step) {
    && s in steps && StepAt(steps, s.position) == Some(s) && r.current <= s.position
    && (forall t <- steps :: t.position <= r.current || t == s || t.position > s.position)
    && (forall t <- steps :: t.position == s.position ==> t == s)
  }

  // One more job, for the next message.
  lemma NewJobReaches(steps: seq<Step>, jobs: seq<Job>, s: Step, h: int)
    requires JobsUpTo(steps, jobs, h) && s in steps && s.stepType == FixedMessage && !HasJobFor(jobs, s.position)
    requires 0 < s.position && forall t <- steps :: t.position < s.position || t == s || t.position > s.position
    requires forall t <- steps :: t.position < s.position ==> t.stepType == FixedMessage ==> t.position <= h
    ensures JobsUpTo(steps, jobs + [Job(Some(s.position), Queued)], Max(h, s.position))
    ensures HasJobFor(jobs + [Job(Some(s.position), Queued)], s.position)
  {
    var job := Job(Some(s.position), Queued);
    HasJobIff(jobs, s.position);
    forall t | t in steps && t.stepType == FixedMessage
      ensures JobsFor(jobs + [job], t.position) ==
              JobsFor(jobs, t.position) + if job.step == Some(t.position) then 1 else 0
    {
      JobsForSnoc(jobs, job, t.position);
    }
    assert job in jobs + [job];
    hide JobsFor, HasJobFor;
  }

  // A message that has its job lies within what was reached.
  lemma OldJobReaches(steps: seq<Step>, jobs: seq<Job>, s: Step, h: int)
    requires JobsUpTo(steps, jobs, h) && s in steps && s.stepType == FixedMessage && HasJobFor(jobs, s.position)
    ensures s.position <= h
  {
    HasJobIff(jobs, s.position);
    hide JobsFor, HasJobFor;
  }

  lemma FixedReaches(steps: seq<Step>, r: Run, s: Step, w: World, h: int)
    requires Reached(steps, r, h) && Within(steps, r, s) && s.stepType == FixedMessage && r.current < s.position
    requires r.status == Active
    ensures var (o, goOn) := ProcessStep(r, s, w);
            && Reached(steps, o.run, Max(h, o.run.current)) && r.current <= o.run.current
            && (goOn ==> o.run.status == Active && o.run.current == s.position)
  {
    if HasJobFor(r.jobs, s.position) {
      OldJobReaches(steps, r.jobs, s, h);
    } else {
      NewJobReaches(steps, r.jobs, s, h);
    }
    hide JobsUpTo, HasJobFor;
  }

  // A reply job belongs to a step that is no fixed message, or to none.
  lemma ReplyJobReaches(steps: seq<Step>, jobs: seq<Job>, h: int, position: Option<int>)
    requires JobsUpTo(steps, jobs, h)
    requires forall t <- steps :: t.stepType == FixedMessage ==> position != Some(t.position)
    ensures JobsUpTo(steps, jobs + [Job(position, Queued)], h)
    ensures position.Some? ==> HasJobFor(jobs + [Job(position, Queued)], position.value)
  {
    var job := Job(position, Queued);
    forall t | t in steps && t.stepType == FixedMessage
      ensures JobsFor(jobs + [job], t.position) == JobsFor(jobs, t.position)
    {
      JobsForSnoc(jobs, job, t.position);
    }
    assert job in jobs + [job];
  }

  lemma FurtherReaches(steps: seq<Step>, r: Run, s: Step, h: int)
    requires Reached(steps, r, h) && Within(steps, r, s) && s.stepType != FixedMessage
    ensures JobsUpTo(steps, r.jobs, Max(h, s.position))
  {
    hide JobsFor;
  }

  lemma GateReaches(steps: seq<Step>, r: Run, s: Step, w: World, h: int)
    requires Reached(steps, r, h) && Within(steps, r, s) && s.stepType == InterestGate && r.status == Active
    ensures var (o, goOn) := RunInterestGate(r, s, w);
            && Reached(steps, o.run, Max(h, o.run.current)) && r.current <= o.run.current
            && (goOn ==> o.run.status == Active && o.run.current == s.position)
  {
    FurtherReaches(steps, r, s, h);
    ReplyJobReaches(steps, r.jobs, Max(h, s.position), Some(s.position));
    hide JobsUpTo, HasJobFor;
  }

  lemma BrainReaches(steps: seq<Step>, r: Run, s: Step, w: World, h: int)
    requires Reached(steps, r, h) && Within(steps, r, s)
    requires s.stepType in {BrainTurn, LlmDecision} && r.status in {Active, AwaitingLlm}
    ensures var o := RunBrainStep(r, s, w); Reached(steps, o.run, Max(h, o.run.current)) && r.current <= o.run.current
  {
    FurtherReaches(steps, r, s, h);
    ReplyJobReaches(steps, r.jobs, Max(h, s.position), Some(s.position));
    hide JobsUpTo, HasJobFor;
  }

  lemma LlmReaches(steps: seq<Step>, r: Run, s: Step, w: World, h: int)
    requires Reached(steps, r, h) && Within(steps, r, s)
    requires s.stepType == LlmDecision && r.status in {Active, AwaitingLlm}
    ensures var o := RunLlmStep(r, s, w); Reached(steps, o.run, Max(h, o.run.current)) && r.current <= o.run.current
  {
    FurtherReaches(steps, r, s, h);
    ReplyJobReaches(steps, r.jobs, Max(h, s.position), None);
    hide JobsUpTo, HasJobFor;
  }

  lemma StepReaches(steps: seq<Step>, r: Run, s: Step, w: World, h: int)
    requires Reached(steps, r, h) && Within(steps, r, s) && r.current < s.position && r.status == Active
    ensures var (o, goOn) := ProcessStep(r, s, w);
            && Reached(steps, o.run, Max(h, o.run.current)) && r.current <= o.run.current
            && (goOn ==> o.run.status == Active && o.run.current == s.position)
  {
    match s.stepType {
      case FixedMessage => FixedReaches(steps, r, s, w, h);
      case InterestGate => GateReaches(steps, r, s, w, h);
      case BrainTurn => BrainReaches(steps, r, s, w, h);
      case LlmDecision => LlmReaches(steps, r, s, w, h);
      case Unsupported => assert ProcessStep(r, s, w).0.run == r;
    }
  }

  lemma NextIsWithin(steps: seq<Step>, r: Run)
    requires Ordered(steps) && StepsAfter(steps, r.current) != []
    ensures Within(steps, r, StepsAfter(steps, r.current)[0]) && r.current < StepsAfter(steps, r.current)[0].position
  {
    NextIsNext(steps, r.current);
  }

  lemma {:induction false} ProcessReaches(steps: seq<Step>, r: Run, w: World, h: int)
    requires Ordered(steps) && Reached(steps, r, h) && r.status == Active
    ensures var o := ProcessList(r, StepsAfter(steps, r.current), w);
            Reached(steps, o.run, Max(h, o.run.current)) && r.current <= o.run.current
    decreases |StepsAfter(steps, r.current)|
  {
    hide Reached, Within, ProcessStep;
    var rest := StepsAfter(steps, r.current);
    if rest == [] {
      SettledReaches(steps, r, Completed, h);
    } else {
      NextIsNext(steps, r.current);
      NextIsWithin(steps, r);
      StepReaches(steps, r, rest[0], w, h);
      var (o, goOn) := ProcessStep(r, rest[0], w);
      if goOn {
        ProcessReaches(steps, o.run, w, Max(h, o.run.current));
      }
    }
  }

  lemma SettledReaches(steps: seq<Step>, r: Run, status: RunStatus, h: int)
    requires Reached(steps, r, h) && status in {Active, Completed, Failed, HandedOff}
    ensures Reached(steps, r.(status := status), h) && Max(h, r.current) == h
  {
  }

  lemma InboundReaches(steps: seq<Step>, r: Run, leadOpen: bool, w: World, h: int)
    requires Ordered(steps) && Reached(steps, r, h)
    ensures var r' := HandleInboundMessage(r, steps, leadOpen, w).run; Reached(steps, r', Max(h, r'.current))
  {
    var r1 := if Ongoing(r.status) then r else Reopen(r, steps, leadOpen);
    assert Reached(steps, r1, h);
    if r1.status == AwaitingReply {
      var p := r1.awaiting.value;
      var r2 := r1.(awaiting := None, status := Active, current := p, history := r1.history + [Consumed(p)]);
      var step := StepAt(steps, p).value;
      assert Reached(steps, r2, h) && Within(steps, r2, step);
      hide Reached, Within, RunInterestGate, RunBrainStep, ProcessList, Reopen;
      if step.stepType in {LlmDecision, BrainTurn} {
        BrainReaches(steps, r2, step, w, h);
      } else if step.stepType == InterestGate {
        GateReaches(steps, r2, step, w, h);
        var (o, goOn) := RunInterestGate(r2, step, w);
        if goOn {
          ProcessReaches(steps, o.run, w, Max(h, o.run.current));
        }
      } else {
        ProcessReaches(steps, r2, w, h);
      }
    }
  }

  lemma JobChangeReaches(steps: seq<Step>, r: Run, i: nat, status: JobStatus, h: int)
    requires Reached(steps, r, h) && i < |r.jobs|
    ensures Reached(steps, r.(jobs := r.jobs[i := r.jobs[i].(status := status)]), h)
  {
    var jobs' := r.jobs[i := r.jobs[i].(status := status)];
    forall p: int ensures JobsFor(jobs', p) == JobsFor(r.jobs, p) {
      JobsForStatusChange(r.jobs, i, status, p);
    }
    HasJobIff(r.jobs, r.current);
    HasJobIff(jobs', r.current);
  }

  lemma RecoverLlmReaches(steps: seq<Step>, r: Run, w: World, h: int)
    requires Ordered(steps) && Reached(steps, r, h) && r.status == AwaitingLlm
    ensures var r' := RecoverAwaitingLlm(r, steps, w).run; Reached(steps, r', Max(h, r'.current))
  {
    var step := StepAt(steps, r.current).value;
    assert Within(steps, r, step);
    if step.stepType == BrainTurn {
      BrainReaches(steps, r, step, w, h);
    } else {
      LlmReaches(steps, r, step, w, h);
    }
    hide JobsUpTo, HasJobFor, Within, RunBrainStep, RunLlmStep;
  }

  // Recovery of a waiting run always finds the awaited step and a job for it: neither of the
  // branches that would go through the steps again is ever taken, and no job is added.
  lemma WaitingRunHasItsJob(steps: seq<Step>, r: Run, w: World)
    requires Awaits(steps, r) && r.status == WaitingOutbound
    ensures r.awaiting == Some(r.current) && StepAt(steps, r.current).Some? && LatestJob(r.jobs, r.current).Some?
    ensures var r' := RecoverWaitingOutbound(r, steps, w).run;
            r' == r.(status := r'.status) && r'.status in {WaitingOutbound, AwaitingReply, Failed}
  {
  }

  lemma SentReaches(steps: seq<Step>, r: Run, position: Option<int>, h: int)
    requires Reached(steps, r, h)
    ensures var r' := MarkOutboundSent(r, steps, position); Reached(steps, r', Max(h, r'.current))
  {
    hide JobsFor, HasJobFor;
  }

  lemma ApplyReaches(steps: seq<Step>, r: Run, e: Event, h: int)
    requires Ordered(steps) && Reached(steps, r, h)
    ensures var r' := Apply(r, steps, e); Reached(steps, r', Max(h, r'.current))
  {
    match e {
      case Started(w) =>
        SettledReaches(steps, r, Active, h);
        hide Reached, ProcessList;
        ProcessReaches(steps, r.(status := Active), w, h);
      case InboundMessage(leadOpen, w) => InboundReaches(steps, r, leadOpen, w, h);
      case OutboundSent(j) => if j < |r.jobs| { SentReaches(steps, r, r.jobs[j].step, h); }
      case JobChanged(j, s) => if j < |r.jobs| { JobChangeReaches(steps, r, j, s, h); }
      case RecoveredWaiting(w) => if r.status == WaitingOutbound { WaitingRunHasItsJob(steps, r, w); }
      case RecoveredLlm(w) => if r.status == AwaitingLlm { RecoverLlmReaches(steps, r, w, h); }
    }
  }

  // ---- Whole runs ----

  // The furthest position a run has reached; a reply to an earlier step can take it back from there.
  function Furthest(steps: seq<Step>, evs: seq<Event>): int {
    if evs == [] then 0 else Max(Furthest(steps, evs[..|evs| - 1]), Play(steps, evs).current)
  }

  lemma {:induction false} NoJobsYet(steps: seq<Step>)
    ensures Reached(steps, NEW_RUN, 0)
  {
  }

  lemma {:induction false} EveryRunReaches(steps: seq<Step>, evs: seq<Event>)
    requires Ordered(steps)
    ensures Reached(steps, Play(steps, evs), Furthest(steps, evs))
  {
    if evs == [] {
      NoJobsYet(steps);
    } else {
      hide Reached, Apply;
      var n := |evs| - 1;
      EveryRunReaches(steps, evs[..n]);
      ApplyReaches(steps, Play(steps, evs[..n]), evs[n], Furthest(steps, evs[..n]));
    }
  }

  // In every run the fixed messages with a job are exactly those up to the furthest position
  // reached, with one job each; the current position never lies beyond it.
  lemma FixedMessagesScheduledOnce(steps: seq<Step>, evs: seq<Event>, s: Step)
    requires Ordered(steps) && s in steps && s.stepType == FixedMessage
    ensures JobsFor(Play(steps, evs).jobs, s.position) == if 0 < s.position <= Furthest(steps, evs) then 1 else 0
    ensures Play(steps, evs).current <= Furthest(steps, evs)
  {
    EveryRunReaches(steps, evs);
    hide Play, Furthest, JobsFor;
  }

  // In every run, recovering a waiting run changes nothing but its status.
  lemma RecoveryAddsNoJob(steps: seq<Step>, evs: seq<Event>, w: World)
    requires Ordered(steps) && Play(steps, evs).status == WaitingOutbound
    ensures var r := Play(steps, evs);
            var r' := RecoverWaitingOutbound(r, steps, w).run;
            && LatestJob(r.jobs, r.current).Some?
            && r' == r.(status := r'.status) && r'.status in {WaitingOutbound, AwaitingReply, Failed}
  {
    EveryRunReaches(steps, evs);
    hide Play, Furthest, JobsUpTo;
    WaitingRunHasItsJob(steps, Play(steps, evs), w);
  }

  // ---- Runs started only while they await nothing ----

  // What is awaited is the current step, and only a waiting, awaiting or failed run awaits anything.
  predicate Tidy(r: Run) {
    && (r.awaiting.Some? ==> r.awaiting.value == r.current)
    && (r.status in {Active, AwaitingLlm, Completed, HandedOff} ==> r.awaiting.None?)
  }

  lemma {:induction false} ProcessIsTidy(r: Run, list: seq<Step>, w: World)
    requires r.status == Active && r.awaiting.None?
    requires forall i :: 0 <= i < |list| ==> r.current < list[i].position
    requires Ordered(list)
    ensures var o := ProcessList(r, list, w).run; Tidy(o) && r.current <= o.current
    decreases |list|
  {
    if list != [] {
      var (o, goOn) := ProcessStep(r, list[0], w);
      if goOn {
        assert Ordered(list[1..]);
        ProcessIsTidy(o.run, list[1..], w);
      }
    }
  }

  lemma {:induction false} AfterIsOrdered(steps: seq<Step>, position: int)
    requires Ordered(steps)
    ensures var rest := StepsAfter(steps, position);
            && Ordered(rest) && (forall s <- rest :: s in steps)
            && forall i :: 0 <= i < |rest| ==> position < rest[i].position
  {
    if steps != [] {
      assert Ordered(steps[1..]);
      AfterIsOrdered(steps[1..], position);
      var rest := StepsAfter(steps[1..], position);
      forall i | 0 <= i < |rest| ensures steps[0].position < rest[i].position {
        assert rest[i] in steps[1..];
      }
    }
  }

  lemma NextIsTidy(steps: seq<Step>, r: Run, w: World)
    requires Ordered(steps) && r.status == Active && r.awaiting.None?
    ensures var o := ProcessNextSteps(r, steps, w).run; Tidy(o) && r.current <= o.current
  {
    AfterIsOrdered(steps, r.current);
    ProcessIsTidy(r, StepsAfter(steps, r.current), w);
  }

  lemma ApplyIsTidy(steps: seq<Step>, r: Run, e: Event)
    requires Ordered(steps) && Tidy(r) && Awaits(steps, r) && (e.Started? ==> r.awaiting.None?)
    ensures Tidy(Apply(r, steps, e)) && r.current <= Apply(r, steps, e).current
  {
    hide ProcessNextSteps, HasJobFor;
    match e {
      case Started(w) =>
        NextIsTidy(steps, r.(status := Active), w);
      case InboundMessage(leadOpen, w) =>
        var r1 := if Ongoing(r.status) then r else Reopen(r, steps, leadOpen);
        if r1.status == AwaitingReply {
          var r2 := r1.(awaiting := None, status := Active, history := r1.history + [Consumed(r1.current)]);
          var step := StepAt(steps, r1.current).value;
          NextIsTidy(steps, r2, w);
          if step.stepType == InterestGate && RunInterestGate(r2, step, w).1 {
            NextIsTidy(steps, RunInterestGate(r2, step, w).0.run, w);
          }
        }
      case RecoveredWaiting(w) => if r.status == WaitingOutbound { WaitingRunHasItsJob(steps, r, w); }
      case RecoveredLlm(w) =>
      case OutboundSent(_) =>
      case JobChanged(_, _) =>
    }
  }

  ghost predicate StartsFresh(steps: seq<Step>, evs: seq<Event>) {
    forall i :: 0 <= i < |evs| && evs[i].Started? ==> Play(steps, evs[..i]).awaiting.None?
  }

  // Such a run is never taken back: it awaits only its current step, an active, LLM or finished run
  // awaits nothing, and the fixed messages with a job are exactly those up to the current position.
  lemma {:induction false} FreshRunsAreTidy(steps: seq<Step>, evs: seq<Event>)
    requires Ordered(steps) && StartsFresh(steps, evs)
    ensures var r := Play(steps, evs);
            Tidy(r) && Awaits(steps, r) && r.current == Furthest(steps, evs) && JobsUpTo(steps, r.jobs, r.current)
  {
    EveryRunReaches(steps, evs);
    if evs != [] {
      var n := |evs| - 1;
      forall i | 0 <= i < n ensures evs[..n][..i] == evs[..i] {
      }
      hide Apply, Tidy, Awaits, JobsUpTo;
      FreshRunsAreTidy(steps, evs[..n]);
      ApplyIsTidy(steps, Play(steps, evs[..n]), evs[n]);
    }
  }

  // ---- Jobs beyond the current position ----

  // In every run the fixed messages with a job are exactly those up to the current position if and
  // only if the run was not taken back over a fixed message.
  lemma JobsUpToCurrentIff(steps: seq<Step>, evs: seq<Event>)
    requires Ordered(steps)
    ensures var r := Play(steps, evs);
            JobsUpTo(steps, r.jobs, r.current) <==>
            forall s <- steps :: s.stepType == FixedMessage && 0 < s.position ==>
              !(r.current < s.position <= Furthest(steps, evs))
  {
    EveryRunReaches(steps, evs);
    hide Play, Furthest, JobsFor;
  }

  // A brain turn, a message and a gate. The run is started again while it awaits the reply to the
  // brain's answer, stops at the gate, and the reply takes it back to the brain turn.
  const TAKEN_BACK :=
    [Step(1, BrainTurn, false, true), Step(2, FixedMessage, true, false), Step(3, InterestGate, false, false)]

  const REPLIES := World(true, _ => Answer(false, false, false, true, false))
  const SILENT := World(true, _ => Answer(false, false, false, false, false))
  const RAISES := World(true, _ => Answer(true, false, false, false, false))

  const DETOUR := [Started(REPLIES), Started(SILENT), OutboundSent(0), InboundMessage(true, RAISES)]

  const ANSWERED := Run(WaitingOutbound, 1, Some(1), [Job(Some(1), Queued)], [Ran(1)])
  const AT_GATE :=
    Run(Active, 3, Some(1), [Job(Some(1), Queued), Job(Some(2), Queued)], [Ran(1), Scheduled(2), Ran(3)])
  const AWAITING_OLD := AT_GATE.(status := AwaitingReply)

  lemma StepsAhead()
    ensures StepsAfter(TAKEN_BACK, 0) == TAKEN_BACK && StepsAfter(TAKEN_BACK, 1) == TAKEN_BACK[1..]
    ensures TAKEN_BACK[1..][1..] == [TAKEN_BACK[2]]
  {
    AllAfter(TAKEN_BACK, 0);
    AllAfter(TAKEN_BACK[1..], 1);
    assert StepsAfter(TAKEN_BACK, 1) == StepsAfter(TAKEN_BACK[1..], 1);
  }

  lemma StartedOnce()
    ensures Start(NEW_RUN, TAKEN_BACK, REPLIES).run == ANSWERED
  {
    StepsAhead();
    hide StepsAfter;
  }

  lemma StartedAgain()
    ensures Start(ANSWERED, TAKEN_BACK, SILENT).run == AT_GATE
  {
    StepsAhead();
    hide StepsAfter;
    var r := ANSWERED.(status := Active);
    assert !HasJobFor(r.jobs, 2);
    var r2 := r.(jobs := AT_GATE.jobs, history := [Ran(1), Scheduled(2)], current := 2);
    assert r.jobs + [Job(Some(2), Queued)] == r2.jobs && r.history + [Scheduled(2)] == r2.history;
    assert r2.history + [Ran(3)] == AT_GATE.history;
    assert ScheduleFixedMessage(r, TAKEN_BACK[1], SILENT) == Outcome(r2, false);
    assert ProcessStep(r, TAKEN_BACK[1], SILENT) == (Outcome(r2, false), true);
    assert ProcessStep(r2, TAKEN_BACK[2], SILENT) == (Outcome(AT_GATE, false), false);
    hide ProcessStep;
    assert ProcessList(r2, [TAKEN_BACK[2]], SILENT).run == AT_GATE;
  }

  // The answer is sent, and the reply to it is consumed at the brain turn, which raises.
  lemma TakenBack()
    ensures Apply(AT_GATE, TAKEN_BACK, OutboundSent(0)) == AWAITING_OLD
    ensures var r := Apply(AWAITING_OLD, TAKEN_BACK, InboundMessage(true, RAISES));
            r.current == 1 && r.jobs == AWAITING_OLD.jobs
  {
    assert StepAt(TAKEN_BACK, 1) == Some(TAKEN_BACK[0]);
    hide ProcessNextSteps;
  }

  // The end of that run: back at step 1, with a job for the message at step 2.
  lemma TakenBackOverAMessage()
    ensures Ordered(TAKEN_BACK)
    ensures var r := Play(TAKEN_BACK, DETOUR);
            r.current == 1 && JobsFor(r.jobs, 2) == 1 && !JobsUpTo(TAKEN_BACK, r.jobs, r.current)
  {
    var steps, evs := TAKEN_BACK, DETOUR;
    StartedOnce();
    StartedAgain();
    TakenBack();
    hide Start, HandleInboundMessage, MarkOutboundSent;
    assert evs[..1] == [] + [evs[0]] && evs[..2] == evs[..1] + [evs[1]] && evs[..3] == evs[..2] + [evs[2]];
    PlayOneMore(steps, [], evs[0]);
    PlayOneMore(steps, evs[..1], evs[1]);
    PlayOneMore(steps, evs[..2], evs[2]);
    hide Apply;
    assert Play(steps, evs) == Apply(Play(steps, evs[..3]), steps, evs[3]);
    hide Play;
    JobsForSnoc([], Job(Some(1), Queued), 2);
    JobsForSnoc([Job(Some(1), Queued)], Job(Some(2), Queued), 2);
    assert steps[1] in steps && steps[1].position == 2;
  }

  lemma PlayOneMore(steps: seq<Step>, evs: seq<Event>, e: Event)
    ensures Play(steps, evs + [e]) == Apply(Play(steps, evs), steps, e)
    ensures evs == [] ==> Play(steps, evs) == NEW_RUN
  {
    assert (evs + [e])[..|evs + [e]| - 1] == evs;
  }
}
