// Whole runs of turns: persisting, superseding and restarting a funnel conversation
// (app/services/funnel_graph/gateway.py), and what every such run keeps.
module FunnelRuns {
  import opened Basics
  import opened FunnelPolicy
  import opened FunnelGraph

  // The persisted runtime row.
  datatype Runtime = Runtime(conversation: Conversation, status: Status)

  // The channels that a checkpointed graph thread supplies again on its next run because the
  // gateway's initial state does not name them: current_state and handoff_required.
  datatype Checkpoint = Checkpoint(currentState: Stage, handoffRequired: bool)

  datatype Gateway = Gateway(runtime: Runtime, thread: Option<Checkpoint>)

  // One inbound turn; superseded when a newer message arrived while the graph ran.
  datatype Event = Inbound(input: TurnInput, superseded: bool)

  const FRESH := Gateway(
    Runtime(Conversation(InterestCheck, EMPTY_PROFILE, [], [], false), ActiveStatus), None)

  // _initial_state followed by load_state, which prefers current_state to stage.
  function Entry(g: Gateway): Conversation {
    var c := g.runtime.conversation;
    match g.thread
    case None => c
    case Some(t) => c.(stage := t.currentState, handoffRequired := t.handoffRequired || c.handoffRequired)
  }

  function Result(g: Gateway, e: Event): TurnResult {
    Turn(Entry(g), e.input)
  }

  function Step(g: Gateway, checkpointed: bool, e: Event): Gateway {
    var r := Result(g, e);
    Gateway(if e.superseded then g.runtime else Runtime(r.after, r.status),
            if checkpointed then Some(Checkpoint(r.after.stage, r.after.handoffRequired)) else None)
  }

  function Sent(g: Gateway, e: Event): seq<Message> {
    if e.superseded then [] else Result(g, e).emitted
  }

  // The state after a run of turns since the last restart, and all messages sent on the way.
  function Run(checkpointed: bool, evs: seq<Event>): Gateway {
    if evs == [] then FRESH
    else Step(Run(checkpointed, evs[..|evs| - 1]), checkpointed, evs[|evs| - 1])
  }

  function Outbox(checkpointed: bool, evs: seq<Event>): seq<Message> {
    if evs == [] then []
    else Outbox(checkpointed, evs[..|evs| - 1]) + Sent(Run(checkpointed, evs[..|evs| - 1]), evs[|evs| - 1])
  }

  // The stage the next turn starts from.
  function StageOf(checkpointed: bool, evs: seq<Event>): Stage {
    Entry(Run(checkpointed, evs)).stage
  }

  class LangGraphFunnelGateway {
    const checkpointed: bool
    var runtime: Runtime
    var thread: Option<Checkpoint>
    var outbox: seq<Message>

    constructor (checkpointed: bool)
      ensures this.checkpointed == checkpointed && State() == FRESH && outbox == []
    {
      this.checkpointed := checkpointed;
      runtime, thread, outbox := FRESH.runtime, None, [];
    }

    function State(): Gateway
      reads this
    {
      Gateway(runtime, thread)
    }

    // decide_for_dialog_message
    method DecideForDialogMessage(input: TurnInput, superseded: bool)
      modifies this
      ensures State() == Step(old(State()), checkpointed, Inbound(input, superseded))
      ensures outbox == old(outbox) + Sent(old(State()), Inbound(input, superseded))
    {
      var result := RunGraph(Entry(State()), input);
      if checkpointed {
        thread := Some(Checkpoint(result.after.stage, result.after.handoffRequired));
      } else {
        thread := None;
      }
      if superseded {
        return;
      }
      PersistRuntime(result);
      outbox := outbox + result.emitted;
    }

    method PersistRuntime(result: TurnResult)
      modifies this`runtime
      ensures runtime == Runtime(result.after, result.status)
    {
      runtime := Runtime(result.after, result.status);
    }

    // restart_for_dialog: a fresh runtime on a fresh thread, then one turn without inbound text.
    method RestartForDialog(input: TurnInput)
      modifies this
      ensures State() == Step(FRESH, checkpointed, Inbound(input, false))
      ensures outbox == old(outbox) + Sent(FRESH, Inbound(input, false))
    {
      runtime := Runtime(Conversation(InterestCheck, EMPTY_PROFILE, [], [], false), ActiveStatus);
      thread := None;
      DecideForDialogMessage(input, false);
    }
  }

  // ---- One turn ----

  predicate Legacy(s: Stage) {
    s in {CompanyIntro, TryInterestCheck, ReadyForInterview}
  }

  // A stage a turn can start from.
  predicate Resting(s: Stage) {
    TypeOf(s) != Action && !Legacy(s)
  }

  // Position on the way from InterestCheck to the end, counting waiting stages only.
  function Height(s: Stage): nat {
    match s
    case InterestCheck => 0
    case AgeCheck => 1
    case WorkIntroDelivery | SalaryScheduleOffer => 2
    case SalaryScheduleDelivery | PostEquipmentQuestionsCheck => 3
    case ProfileThemeCheck => 4
    case SupportSmalltalk | RoomAvailableCheck => 5
    case EquipmentPhoneCheck => 6
    case InterviewOffer => 7
    case ContactCollection => 8
    case InterviewDayCheck => 9
    case InterviewTimeCheck | InterviewCustomTime => 10
    case HumanHandoff | Lost | DoNotContact | ReadyForInterview => 11
    case CompanyIntro | TryInterestCheck => 3
  }

  // Every waiting stage from `from` up to but not including `to` is complete; the last two
  // alternatives, InterviewTimeCheck and InterviewCustomTime, need only one of them to be.
  ghost predicate CompletedBetween(from: Stage, to: Stage, p: Profile) {
    && (forall w :: TypeOf(w) == Waiting && !Legacy(w) && Height(from) <= Height(w) < Height(to) && Height(w) < 10
                    ==> RequirementMet(w, p))
    && (Height(from) < Height(to) == 11 ==>
          RequirementMet(InterviewTimeCheck, p) || RequirementMet(InterviewCustomTime, p))
  }

  lemma OneHop(s: Stage, p: Profile)
    requires TypeOf(s) == Waiting && !Legacy(s) && RequirementMet(s, p)
    ensures var n := NextStage(s, p);
            !Legacy(n) && n != Lost && n != DoNotContact && Height(n) == Height(s) + 1 && CompletedBetween(s, n, p)
  {
    var n := NextStage(s, p);
    assert Height(n) == Height(s) + 1;
    forall w | TypeOf(w) == Waiting && !Legacy(w) && Height(w) == Height(s) && Height(w) < 10
      ensures w == s
    {
    }
  }

  lemma BetweenJoins(from: Stage, mid: Stage, to: Stage, p: Profile)
    requires CompletedBetween(from, mid, p) && CompletedBetween(mid, to, p)
    requires Height(from) <= Height(mid) <= Height(to)
    ensures CompletedBetween(from, to, p)
  {
    hide RequirementMet, TypeOf, Height, Legacy;
  }

  // The advance loop climbs over completed waiting stages only.
  lemma {:induction false} AdvanceClimbs(s: Stage, p: Profile)
    requires !Legacy(s) && s != Lost && s != DoNotContact
    ensures var t := Advance(s, p);
            && !Legacy(t) && t != Lost && t != DoNotContact
            && Height(s) <= Height(t)
            && CompletedBetween(s, t, p)
    decreases TOP - Rank(s)
  {
    if TypeOf(s) == Waiting && RequirementMet(s, p) {
      NextClimbs(s, p);
      OneHop(s, p);
      hide RequirementMet, TypeOf, Height, Legacy, NextStage, CompletedBetween, Rank;
      AdvanceClimbs(NextStage(s, p), p);
      BetweenJoins(s, NextStage(s, p), Advance(s, p), p);
    }
  }

  // The target a turn picks: never a stage of the old funnel, never below the start.
  lemma TargetMoves(c: Conversation, input: TurnInput)
    requires Resting(c.stage)
    ensures var t := Decide(c, input).target;
            && !Legacy(t)
            && (Terminal(c.stage) ==> t == c.stage)
            && (t != c.stage ==> Height(c.stage) < Height(t))
  {
    var p := TurnProfile(c, input.semantic);
    var t := Decide(c, input).target;
    if MayLeave(c, input.semantic) && RequirementMet(c.stage, p) {
      OneHop(c.stage, p);
      AdvanceClimbs(NextStage(c.stage, p), p);
    }
    hide RequirementMet, NextStage, Advance, Merge, MayLeave, CompletedBetween, Outgoing;
  }

  // Running an action stage keeps the height and ends in a resting stage.
  lemma AfterAction(t: Stage)
    requires !Legacy(t)
    ensures Resting(StageAfter(t)) && Height(StageAfter(t)) == Height(t)
    ensures Terminal(t) ==> StageAfter(t) == t
  {
  }

  // What a turn does to the stage it started from.
  lemma TurnMoves(c: Conversation, input: TurnInput)
    requires Resting(c.stage)
    ensures var r := Turn(c, input);
            && Resting(r.after.stage)
            && r.status == StatusForStage(r.after.stage)
            && (Terminal(c.stage) ==> r.after.stage == c.stage)
            && (r.after.stage != c.stage ==> Height(c.stage) < Height(r.after.stage))
  {
    TargetMoves(c, input);
    AfterAction(Decide(c, input).target);
    hide Decide, Height, Resting, StatusForStage, Terminal, StageAfter;
    if Decide(c, input).target == c.stage {
      RestingStays(c.stage);
    }
  }

  lemma RestingStays(s: Stage)
    requires Resting(s)
    ensures StageAfter(s) == s
  {
  }

  // A stage left for anything but a refusal or a requested handoff was complete, and so was
  // every waiting stage passed on the way.
  lemma LeftOnlyWhenComplete(c: Conversation, input: TurnInput)
    requires Resting(c.stage)
    requires var s := Turn(c, input).after.stage;
             s != c.stage && s != Lost && s != DoNotContact && (s == HumanHandoff ==> !HandoffAsked(c, input.reply))
    ensures CompletedBetween(c.stage, Turn(c, input).after.stage, TurnProfile(c, input.semantic))
  {
    var p := TurnProfile(c, input.semantic);
    var t := Decide(c, input).target;
    TargetMoves(c, input);
    AfterAction(t);
    RestingStays(c.stage);
    LeavingTarget(c, input);
    OneHop(c.stage, p);
    AdvanceClimbs(NextStage(c.stage, p), p);
    hide RequirementMet, NextStage, Advance, TurnProfile, Height, Decide, Legacy, TypeOf, Terminal;
    if t != NextStage(c.stage, p) {
      BetweenJoins(c.stage, NextStage(c.stage, p), t, p);
    }
    SameHeight(c.stage, t, StageAfter(t), p);
  }

  lemma SameHeight(from: Stage, to: Stage, other: Stage, p: Profile)
    requires CompletedBetween(from, to, p) && Height(to) == Height(other)
    ensures CompletedBetween(from, other, p)
  {
    hide RequirementMet, TypeOf, Height, Legacy;
  }

  lemma LeavingTarget(c: Conversation, input: TurnInput)
    requires Resting(c.stage)
    requires var t := Decide(c, input).target;
             t != c.stage && t != Lost && t != DoNotContact && (t == HumanHandoff ==> !HandoffAsked(c, input.reply))
    ensures var p := TurnProfile(c, input.semantic);
            var t := Decide(c, input).target;
            && TypeOf(c.stage) == Waiting && RequirementMet(c.stage, p)
            && (t == NextStage(c.stage, p) || t == Advance(NextStage(c.stage, p), p))
  {
    hide RequirementMet, Merge, NextStage, Advance, Outgoing;
  }

  // ---- Whole runs ----

  // Kept by every turn, superseded or not, with the checkpointer on or off.
  ghost predicate Sound(g: Gateway) {
    var s := Entry(g).stage;
    var kept := g.runtime.conversation;
    && Resting(s) && Resting(kept.stage)
    && g.runtime.status == StatusForStage(kept.stage)
    && Height(kept.stage) <= Height(s)
    && (Terminal(kept.stage) ==> kept.stage == s)
    && (g.thread.None? ==> kept.stage == s)
  }

  lemma StepIsSound(g: Gateway, checkpointed: bool, e: Event)
    requires Sound(g) && (!checkpointed ==> g.thread.None?)
    ensures var g' := Step(g, checkpointed, e);
            && Sound(g') && (!checkpointed ==> g'.thread.None?)
            && (Terminal(Entry(g).stage) ==> Entry(g').stage == Entry(g).stage)
            && (Entry(g').stage != Entry(g).stage ==> Height(Entry(g).stage) < Height(Entry(g').stage))
            && (Entry(g').stage == Entry(g).stage || Entry(g').stage == Result(g, e).after.stage)
  {
    TurnMoves(Entry(g), e.input);
    hide Turn, Height, Terminal, Resting, StatusForStage;
  }

  lemma {:induction false} RunIsSound(checkpointed: bool, evs: seq<Event>)
    ensures Sound(Run(checkpointed, evs)) && (!checkpointed ==> Run(checkpointed, evs).thread.None?)
  {
    if evs != [] {
      RunIsSound(checkpointed, evs[..|evs| - 1]);
      StepIsSound(Run(checkpointed, evs[..|evs| - 1]), checkpointed, evs[|evs| - 1]);
    }
  }

  lemma PrefixOfPrefix(evs: seq<Event>, i: nat, k: nat)
    requires i <= k <= |evs|
    ensures evs[..k][..i] == evs[..i]
  {
  }

  // The turn is asked for nothing that moves the conversation: a closed one gets no new handoff
  // request, an open one no refusal, no handoff and no answer that completes its stage.
  predicate Quiet(c: Conversation, sem: Semantic, reply: Reply) {
    if Terminal(c.stage) then c.handoffRequired || (!reply.handoffRequired && c.stage != HumanHandoff)
    else
      && TypeOf(c.stage) != Action
      && sem.messageType !in {AskedNotToContact, HardRefusal} && !HandoffAsked(c, reply)
      && !(MayLeave(c, sem) && RequirementMet(c.stage, TurnProfile(c, sem)))
  }

  lemma {:induction false} AdvanceRanks(s: Stage, p: Profile)
    ensures Rank(s) <= Rank(Advance(s, p))
    decreases TOP - Rank(s)
  {
    if TypeOf(s) == Waiting && RequirementMet(s, p) {
      NextClimbs(s, p);
      AdvanceRanks(NextStage(s, p), p);
    }
  }

  lemma ActionRanks(t: Stage)
    ensures Rank(t) <= Rank(StageAfter(t)) && (TypeOf(t) == Action ==> StageAfter(t) != t)
  {
  }

  // A turn leaves the stage and the handoff flag alone exactly if it is quiet.
  lemma QuietTurns(c: Conversation, input: TurnInput)
    ensures var after := Turn(c, input).after;
            after.stage == c.stage && after.handoffRequired == c.handoffRequired <==>
                Quiet(c, input.semantic, input.reply)
  {
    var p := TurnProfile(c, input.semantic);
    ActionRanks(Decide(c, input).target);
    if MayLeave(c, input.semantic) && RequirementMet(c.stage, p) {
      NextClimbs(c.stage, p);
      AdvanceRanks(NextStage(c.stage, p), p);
    }
    hide RequirementMet, NextStage, Advance, Merge, MayLeave, Outgoing, Rank, StageAfter;
  }

  // A superseded turn sends and persists nothing, and the next turn starts as if it had never run
  // exactly if there is no checkpointer or the turn was quiet.
  lemma SupersededIsForgottenIff(g: Gateway, checkpointed: bool, e: Event)
    requires e.superseded && (!checkpointed ==> g.thread.None?)
    ensures Sent(g, e) == [] && Step(g, checkpointed, e).runtime == g.runtime
    ensures Entry(Step(g, checkpointed, e)) == Entry(g) <==>
            !checkpointed || Quiet(Entry(g), e.input.semantic, e.input.reply)
  {
    QuietTurns(Entry(g), e.input);
    if Entry(g).handoffRequired {
      FlagIsKept(Entry(g), e.input);
    }
    hide Turn, Quiet;
  }

  lemma FlagIsKept(c: Conversation, input: TurnInput)
    requires c.handoffRequired
    ensures Turn(c, input).after.handoffRequired
  {
    hide Outgoing, TargetOf, TurnProfile;
  }

  // The stage only climbs, and a terminal stage is never left.
  lemma {:induction false} StageOnlyClimbs(checkpointed: bool, evs: seq<Event>, i: nat)
    requires i <= |evs|
    ensures var early := StageOf(checkpointed, evs[..i]);
            var late := StageOf(checkpointed, evs);
            && Resting(late)
            && (early != late ==> Height(early) < Height(late))
            && (Terminal(early) ==> late == early)
    decreases |evs|
  {
    hide Height, Terminal, Resting, Step, Entry;
    RunIsSound(checkpointed, evs);
    if i < |evs| {
      var before := evs[..|evs| - 1];
      PrefixOfPrefix(evs, i, |evs| - 1);
      StageOnlyClimbs(checkpointed, before, i);
      RunIsSound(checkpointed, before);
      StepIsSound(Run(checkpointed, before), checkpointed, evs[|evs| - 1]);
      EntryIsResting(Run(checkpointed, evs));
    } else {
      assert evs[..i] == evs;
      EntryIsResting(Run(checkpointed, evs));
    }
  }

  lemma EntryIsResting(g: Gateway)
    requires Sound(g)
    ensures Resting(Entry(g).stage)
  {
  }

  function Changes(checkpointed: bool, evs: seq<Event>): nat {
    if evs == [] then 0
    else
      var before := evs[..|evs| - 1];
      Changes(checkpointed, before) + if StageOf(checkpointed, evs) != StageOf(checkpointed, before) then 1 else 0
  }

  // A run changes stage at most eleven times, however long it is.
  lemma {:induction false} AtMostElevenChanges(checkpointed: bool, evs: seq<Event>)
    ensures Changes(checkpointed, evs) <= Height(StageOf(checkpointed, evs)) <= 11
  {
    if evs != [] {
      hide Height;
      var before := evs[..|evs| - 1];
      AtMostElevenChanges(checkpointed, before);
      StageOnlyClimbs(checkpointed, evs, |evs| - 1);
      HeightBound(StageOf(checkpointed, evs));
    }
  }

  lemma HeightBound(s: Stage)
    ensures Height(s) <= 11
  {
  }

  // The bound is reached: an analyzer that reports every fact, but always together with an
  // unresolved question, moves the conversation one edge a turn.
  const ALL_FACTS := Profile(Some(true), Some(18), Some(true), Some(true), Some(true), Some("p"), None, Some(true),
                             Some("m"), Some(true), Some("n"), Some("t"), Some(true), Some("d"), Some("t"), Some("c"))

  function Cautious(texts: Texts): Event {
    Inbound(TurnInput(Semantic(PartialAnswer, false, true, ALL_FACTS), Reply(true, false, []), texts), false)
  }

  lemma CautiousTurnMovesOneUp(c: Conversation, texts: Texts)
    requires Resting(c.stage) && !Terminal(c.stage) && !c.handoffRequired
    ensures var s := Turn(c, Cautious(texts).input).after.stage;
            s != c.stage && Height(s) == Height(c.stage) + 1
    ensures var r := Turn(c, Cautious(texts).input);
            r.after.handoffRequired ==> r.after.stage == HumanHandoff
  {
    var input := Cautious(texts).input;
    var p := TurnProfile(c, input.semantic);
    assert RequirementMet(c.stage, p);
    OneHop(c.stage, p);
    assert Decide(c, input).target == NextStage(c.stage, p) by {
      hide RequirementMet, NextStage, Merge;
      assert MayLeave(c, input.semantic);
    }
    hide Outgoing, Merge, RequirementMet, NextStage, Chosen, TurnedDown;
    assert Height(StageAfter(Decide(c, input).target)) == Height(Decide(c, input).target);
  }

  lemma {:induction false} ElevenChangesHappen(texts: Texts, n: nat)
    requires n <= 11
    ensures var evs := seq(n, _ => Cautious(texts));
            var g := Run(false, evs);
            && Sound(g) && g.thread.None?
            && Height(Entry(g).stage) == n == Changes(false, evs)
            && (Entry(g).handoffRequired ==> Entry(g).stage == HumanHandoff)
  {
    var evs := seq(n, _ => Cautious(texts));
    if n > 0 {
      var before := seq(n - 1, _ => Cautious(texts));
      assert evs[..n - 1] == before;
      ElevenChangesHappen(texts, n - 1);
      var g := Run(false, before);
      TerminalIsTop(Entry(g).stage);
      hide Height, Turn, Terminal, Resting;
      CautiousTurnMovesOneUp(Entry(g), texts);
      StepIsSound(g, false, Cautious(texts));
    }
  }

  lemma TerminalIsTop(s: Stage)
    ensures Terminal(s) <==> Height(s) == 11
  {
  }

  // ---- What a run that got somewhere must have gone through ----

  // Turn i took effect, its profile completed w, and it took the conversation past w.
  predicate PassedAt(checkpointed: bool, evs: seq<Event>, w: Stage, i: nat) {
    && i < |evs|
    && RequirementMet(w, TurnProfile(Entry(Run(checkpointed, evs[..i])), evs[i].input.semantic))
    && (!checkpointed ==> !evs[i].superseded)
    && Height(StageOf(checkpointed, evs[..i])) <= Height(w) < Height(StageOf(checkpointed, evs[..i + 1]))
  }

  // Event i takes effect, on a conversation that is still open.
  predicate Counts(checkpointed: bool, evs: seq<Event>, i: nat)
    requires i < |evs|
  {
    (checkpointed || !evs[i].superseded) && !Terminal(StageOf(checkpointed, evs[..i]))
  }

  // No reply asked for a handoff while that could still make a difference.
  predicate NoHandoffAsked(checkpointed: bool, evs: seq<Event>) {
    forall i :: 0 <= i < |evs| && Counts(checkpointed, evs, i) ==> !evs[i].input.reply.handoffRequired
  }

  lemma NoHandoffBefore(checkpointed: bool, evs: seq<Event>)
    requires evs != [] && NoHandoffAsked(checkpointed, evs)
    ensures NoHandoffAsked(checkpointed, evs[..|evs| - 1])
  {
    hide StageOf, Terminal;
    var n := |evs| - 1;
    forall i | 0 <= i < n && Counts(checkpointed, evs[..n], i) ensures !evs[..n][i].input.reply.handoffRequired {
      PrefixOfPrefix(evs, i, n);
      assert Counts(checkpointed, evs, i);
    }
  }

  lemma {:induction false} HandoffFlagMeansClosed(checkpointed: bool, evs: seq<Event>)
    requires NoHandoffAsked(checkpointed, evs)
    ensures Entry(Run(checkpointed, evs)).handoffRequired ==> Terminal(StageOf(checkpointed, evs))
  {
    if evs != [] {
      var n := |evs| - 1;
      var before := evs[..n];
      var g := Run(checkpointed, before);
      NoHandoffBefore(checkpointed, evs);
      HandoffFlagMeansClosed(checkpointed, before);
      RunIsSound(checkpointed, before);
      StepIsSound(g, checkpointed, evs[n]);
      FlagAfterTurn(Entry(g), evs[n].input);
      assert Counts(checkpointed, evs, n) ==> !evs[n].input.reply.handoffRequired;
      hide NoHandoffAsked, Turn;
    }
  }

  lemma FlagAfterTurn(c: Conversation, input: TurnInput)
    ensures Turn(c, input).after.handoffRequired ==>
              HandoffAsked(c, input.reply) || Turn(c, input).after.stage == HumanHandoff
  {
    hide Outgoing, TurnedDown, Chosen, TurnProfile;
  }

  // Every waiting stage below the stage reached was complete in the turn that passed it: always
  // while the conversation is open, and for human_handoff unless a reply asked for it on the way.
  lemma {:induction false} CompletedOnTheWay(checkpointed: bool, evs: seq<Event>, w: Stage)
    requires TypeOf(w) == Waiting && !Legacy(w) && Height(w) < 10
    requires var s := StageOf(checkpointed, evs);
             Height(w) < Height(s) && s != Lost && s != DoNotContact &&
             (s == HumanHandoff ==> NoHandoffAsked(checkpointed, evs))
    ensures exists i :: PassedAt(checkpointed, evs, w, i)
  {
    hide Height, TypeOf, Legacy, Turn, RequirementMet, TurnProfile;
    if evs == [] {
      HeightOfStart();
      return;
    }
    var n := |evs| - 1;
    var before := evs[..n];
    var s := StageOf(checkpointed, evs);
    var s0 := StageOf(checkpointed, before);
    StageOnlyClimbs(checkpointed, evs, n);
    if s0 == s || Height(w) < Height(s0) {
      StageOnlyClimbs(checkpointed, before, n);
      if s == HumanHandoff {
        NoHandoffBefore(checkpointed, evs);
      }
      CompletedOnTheWay(checkpointed, before, w);
      var i :| PassedAt(checkpointed, before, w, i);
      PassedAtExtends(checkpointed, evs, w, i);
    } else {
      LastTurnCompleted(checkpointed, evs);
      assert evs[..n + 1] == evs;
      hide Run;
      assert PassedAt(checkpointed, evs, w, n);
    }
  }

  lemma PassedAtExtends(checkpointed: bool, evs: seq<Event>, w: Stage, i: nat)
    requires evs != [] && PassedAt(checkpointed, evs[..|evs| - 1], w, i)
    ensures PassedAt(checkpointed, evs, w, i)
  {
    hide RequirementMet, TurnProfile, Run, Entry, Height, StageOf;
    var before := evs[..|evs| - 1];
    PrefixOfPrefix(evs, i, |evs| - 1);
    PrefixOfPrefix(evs, i + 1, |evs| - 1);
    assert before[..i] == evs[..i] && before[..i + 1] == evs[..i + 1] && before[i] == evs[i];
  }

  lemma HeightOfStart()
    ensures Height(StageOf(true, [])) == 0 == Height(StageOf(false, []))
  {
  }

  // If the last turn moved the stage forward, its profile completed everything in between.
  lemma LastTurnCompleted(checkpointed: bool, evs: seq<Event>)
    requires evs != []
    requires var s := StageOf(checkpointed, evs);
             s != StageOf(checkpointed, evs[..|evs| - 1]) && s != Lost && s != DoNotContact &&
             (s == HumanHandoff ==> NoHandoffAsked(checkpointed, evs))
    ensures var n := |evs| - 1;
            var g := Run(checkpointed, evs[..n]);
            && CompletedBetween(Entry(g).stage, StageOf(checkpointed, evs),
                 TurnProfile(Entry(g), evs[n].input.semantic))
            && Height(Entry(g).stage) < Height(StageOf(checkpointed, evs))
            && (!checkpointed ==> !evs[n].superseded)
  {
    var n := |evs| - 1;
    var g := Run(checkpointed, evs[..n]);
    RunIsSound(checkpointed, evs[..n]);
    StepIsSound(g, checkpointed, evs[n]);
    hide Height, Turn, Terminal, Resting, CompletedBetween, TurnProfile, StatusForStage;
    if StageOf(checkpointed, evs) == HumanHandoff {
      NoHandoffBefore(checkpointed, evs);
      HandoffFlagMeansClosed(checkpointed, evs[..n]);
      assert Counts(checkpointed, evs, n);
    }
    LeftOnlyWhenComplete(Entry(g), evs[n].input);
  }

  // human_handoff that no reply asked for was reached with a time for the interview.
  lemma {:induction false} HandoffHasATime(checkpointed: bool, evs: seq<Event>)
    requires StageOf(checkpointed, evs) == HumanHandoff && NoHandoffAsked(checkpointed, evs)
    ensures exists i ::
              PassedAt(checkpointed, evs, InterviewTimeCheck, i) || PassedAt(checkpointed, evs, InterviewCustomTime, i)
  {
    hide TypeOf, Legacy, Turn, RequirementMet, TurnProfile;
    if evs == [] {
      return;
    }
    var n := |evs| - 1;
    var before := evs[..n];
    hide Run, Entry, NoHandoffAsked, PassedAt;
    if StageOf(checkpointed, before) == HumanHandoff {
      NoHandoffBefore(checkpointed, evs);
      HandoffHasATime(checkpointed, before);
      var i :|
        PassedAt(checkpointed, before, InterviewTimeCheck, i) || PassedAt(checkpointed, before, InterviewCustomTime, i);
      var early := PassedAt(checkpointed, before, InterviewTimeCheck, i);
      var w := if early then InterviewTimeCheck else InterviewCustomTime;
      PassedAtExtends(checkpointed, evs, w, i);
    } else {
      LastTurnReachesHandoff(checkpointed, evs);
    }
  }

  lemma LastTurnReachesHandoff(checkpointed: bool, evs: seq<Event>)
    requires evs != [] && StageOf(checkpointed, evs) == HumanHandoff && NoHandoffAsked(checkpointed, evs)
    requires StageOf(checkpointed, evs[..|evs| - 1]) != HumanHandoff
    ensures var n := |evs| - 1;
            PassedAt(checkpointed, evs, InterviewTimeCheck, n) || PassedAt(checkpointed, evs, InterviewCustomTime, n)
  {
    hide TypeOf, Legacy, Turn, RequirementMet, TurnProfile, Run, Entry, NoHandoffAsked;
    LastTurnCompleted(checkpointed, evs);
    assert evs[..|evs|] == evs;
  }

  // Nobody gets past age_check without a turn that confirmed an age of at least 18.
  lemma AdultsOnly(checkpointed: bool, evs: seq<Event>)
    requires var s := StageOf(checkpointed, evs); !Terminal(s) && Height(s) > 1
    ensures exists i: nat :: i < |evs| &&
              var p := TurnProfile(Entry(Run(checkpointed, evs[..i])), evs[i].input.semantic);
              && IsTrue(p.ageConfirmed) && p.age.Some? && p.age.value >= 18
              && Height(StageOf(checkpointed, evs[..i])) <= 1 < Height(StageOf(checkpointed, evs[..i + 1]))
  {
    CompletedOnTheWay(checkpointed, evs, AgeCheck);
    var i :| PassedAt(checkpointed, evs, AgeCheck, i);
  }
}
