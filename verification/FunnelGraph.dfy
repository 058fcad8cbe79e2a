// One turn of the graph: the state controller followed by the action executor
// (app/services/funnel_graph/graph.py, lines 236-371 and 436-494).
module FunnelGraph {
  import opened Basics
  import opened FunnelPolicy

  datatype MessageType =
    | Empty | StageAnswer | InterruptQuestion | Objection | Mixed | PartialAnswer
    | SoftRefusal | HardRefusal | AskedNotToContact | Unclear | Pause

  // The analyzer's verdict on the turn: any value of this type may come in.
  datatype Semantic = Semantic(
    messageType: MessageType,
    currentGoalSatisfied: bool,
    hasUnresolvedInterrupt: bool,
    facts: Profile)

  datatype Kind = TextKind | VoicePackKind | OtherKind

  datatype Message = Message(kind: Kind, text: Option<string>, voicePackId: Option<string>, delaySeconds: Option<int>)

  // The reply generator's output: any list of messages, of any kind.
  datatype Reply = Reply(sendReply: bool, handoffRequired: bool, messages: seq<Message>)

  // Wordings that the graph takes from templates and helper texts.
  datatype Texts = Texts(question: Stage -> string, lost: string, handoff: string, smalltalk: string, template: string)

  datatype TurnInput = TurnInput(semantic: Semantic, reply: Reply, texts: Texts)

  // What one turn reads of the conversation, and leaves behind for the next.
  datatype Conversation = Conversation(
    stage: Stage,
    profile: Profile,
    voicePacks: seq<string>,
    templates: seq<string>,
    handoffRequired: bool)

  datatype Refusal = TransitionNotAllowed | RequirementNotMet

  datatype Decision = Decision(
    target: Stage,
    invalid: Option<Refusal>,
    profile: Profile,
    sendReply: bool,
    outgoing: seq<Message>,
    handoffRequired: bool)

  datatype Status = ActiveStatus | HandoffStatus | ClosedStatus

  datatype TurnResult = TurnResult(
    after: Conversation,
    status: Status,
    emitted: seq<Message>)

  function StatusForStage(s: Stage): Status {
    if s == HumanHandoff then HandoffStatus
    else if s in {ReadyForInterview, Lost, DoNotContact} then ClosedStatus
    else ActiveStatus
  }

  function TextMessage(text: string): Message {
    Message(TextKind, Some(text), None, None)
  }

  function Newer<T>(found: Option<T>, known: Option<T>): Option<T> {
    if found.Some? then found else known
  }

  // profile.update(non_null_facts): the facts never carry smalltalk_done.
  function Merge(p: Profile, f: Profile): Profile {
    Profile(Newer(f.interestConfirmed, p.interestConfirmed), Newer(f.age, p.age),
            Newer(f.ageConfirmed, p.ageConfirmed), Newer(f.salaryScheduleInterest, p.salaryScheduleInterest),
            Newer(f.questionsResolved, p.questionsResolved), Newer(f.profileInfo, p.profileInfo),
            p.smalltalkDone, Newer(f.roomAvailable, p.roomAvailable), Newer(f.phoneModel, p.phoneModel),
            Newer(f.interviewInterest, p.interviewInterest), Newer(f.candidateName, p.candidateName),
            Newer(f.phoneNumber, p.phoneNumber), Newer(f.interviewDayConfirmed, p.interviewDayConfirmed),
            Newer(f.interviewDay, p.interviewDay), Newer(f.interviewTime, p.interviewTime),
            Newer(f.customInterviewDatetime, p.customInterviewDatetime))
  }

  function TurnProfile(c: Conversation, sem: Semantic): Profile {
    Merge(c.profile, sem.facts)
  }

  predicate CompletedByFields(c: Conversation, sem: Semantic) {
    sem.messageType != Empty && !sem.hasUnresolvedInterrupt && RequirementMet(c.stage, TurnProfile(c, sem))
  }

  predicate HandoffAsked(c: Conversation, reply: Reply) {
    reply.handoffRequired || c.handoffRequired
  }

  // May this turn leave a waiting stage forward, given that its requirement is met?
  predicate MayLeave(c: Conversation, sem: Semantic) {
    sem.messageType != Empty && TypeOf(c.stage) == Waiting &&
    ((sem.currentGoalSatisfied && !sem.hasUnresolvedInterrupt) || CompletedByFields(c, sem) ||
     sem.messageType == PartialAnswer)
  }

  // The target before the validity check.
  function Chosen(c: Conversation, sem: Semantic, reply: Reply): Stage {
    var p := TurnProfile(c, sem);
    if sem.messageType == AskedNotToContact then DoNotContact
    else if sem.messageType == HardRefusal then Lost
    else if HandoffAsked(c, reply) then HumanHandoff
    else if MayLeave(c, sem) && RequirementMet(c.stage, p) then
      if sem.hasUnresolvedInterrupt then NextStage(c.stage, p) else Advance(NextStage(c.stage, p), p)
    else c.stage
  }

  // A chosen target is turned down in exactly two situations, neither of which a
  // conversation that started at InterestCheck and is still open can be in.
  predicate TurnedDown(c: Conversation, sem: Semantic, reply: Reply) {
    if Terminal(c.stage) then Chosen(c, sem, reply) != c.stage
    else TypeOf(c.stage) == Action && Chosen(c, sem, reply) == c.stage
  }

  predicate Mentions(ms: seq<Message>, q: string) {
    exists m <- ms :: m.text.Some? && Has(m.text.value, q)
  }

  function TargetOf(c: Conversation, sem: Semantic, reply: Reply): Stage {
    if TurnedDown(c, sem, reply) then c.stage else Chosen(c, sem, reply)
  }

  function AskedIf(condition: bool, stage: Stage, texts: Texts): seq<Message> {
    if condition && HasQuestion(stage) then [TextMessage(texts.question(stage))] else []
  }

  // The messages the controller hands to the executor.
  function Outgoing(c: Conversation, input: TurnInput): seq<Message> {
    var TurnInput(sem, reply, texts) := input;
    var target := TargetOf(c, sem, reply);
    var given := if sem.messageType == AskedNotToContact then [] else reply.messages;
    if TurnedDown(c, sem, reply) then AskedIf(true, c.stage, texts)
    else if target == Lost && given == [] then [TextMessage(texts.lost)]
    else if target == HumanHandoff then (if given == [] then [TextMessage(texts.handoff)] else given)
    else if TypeOf(target) == Action then []
    else if target != c.stage then
      var kept := if CompletedByFields(c, sem) then [] else given;
      kept + AskedIf(HasQuestion(target) && !Mentions(kept, texts.question(target)), target, texts)
    else
      var silent := reply.sendReply && sem.messageType !in {AskedNotToContact, Empty} && given == [];
      given + AskedIf(silent, c.stage, texts)
  }

  function Decide(c: Conversation, input: TurnInput): Decision {
    var TurnInput(sem, reply, texts) := input;
    var target := TargetOf(c, sem, reply);
    Decision(target,
             if TurnedDown(c, sem, reply) then Some(TransitionNotAllowed) else None,
             TurnProfile(c, sem),
             (reply.sendReply && sem.messageType != AskedNotToContact) || TurnedDown(c, sem, reply) ||
             TypeOf(target) == Action,
             Outgoing(c, input),
             HandoffAsked(c, reply) || target == HumanHandoff)
  }

  // The controller as it runs: a target is picked, advanced and checked, then the
  // outgoing list is overwritten branch by branch.
  method StateController(c: Conversation, input: TurnInput) returns (d: Decision)
    ensures d == Decide(c, input)
  {
    hide RequirementMet, TurnedDown, Chosen, Merge, Outgoing;
    var profile := Merge(c.profile, input.semantic.facts);
    var handoffRequired := input.reply.handoffRequired || c.handoffRequired;
    var target, invalid := PickTarget(c, input.semantic, input.reply, handoffRequired, profile);
    var outgoing, sendReply := ShapeOutgoing(c, input, target, invalid.Some?, profile);
    d := Decision(target, invalid, profile, sendReply, outgoing, handoffRequired || target == HumanHandoff);
  }

  method PickTarget(c: Conversation, sem: Semantic, reply: Reply, handoffRequired: bool, profile: Profile)
    returns (target: Stage, invalid: Option<Refusal>)
    requires profile == TurnProfile(c, sem) && handoffRequired == HandoffAsked(c, reply)
    ensures target == TargetOf(c, sem, reply)
    ensures invalid == if TurnedDown(c, sem, reply) then Some(TransitionNotAllowed) else None
  {
    hide RequirementMet, NextStage, CanTransition, Rank, Merge, Advance, ReachesTarget, TypeOf, Chosen, TurnedDown;
    var completedByFields :=
      sem.messageType != Empty && !sem.hasUnresolvedInterrupt && RequirementMet(c.stage, profile);
    target := c.stage;
    invalid := None;
    if sem.messageType == AskedNotToContact {
      target := DoNotContact;
    } else if sem.messageType == HardRefusal {
      target := Lost;
    } else if handoffRequired {
      target := HumanHandoff;
    } else if sem.messageType != Empty && TypeOf(c.stage) == Waiting {
      if sem.currentGoalSatisfied && !sem.hasUnresolvedInterrupt {
        target := NextStage(c.stage, profile);
      } else if completedByFields {
        target := NextStage(c.stage, profile);
      } else if sem.messageType == PartialAnswer {
        target := NextStage(c.stage, profile);
      } else {
        target := c.stage;
      }
    }
    ChoiceSteps(c, sem, reply, target);
    if target != c.stage && !sem.hasUnresolvedInterrupt {
      target := AdvanceThroughCompletedWaitingStages(target, profile);
    }

    TurnedDownExactly(c, sem, reply);
    var allowed := CanTransitionViaCompletedStages(c.stage, target, profile);
    if !allowed {
      invalid := Some(TransitionNotAllowed);
      target := c.stage;
    } else if target != c.stage && !Terminal(target) && !RequirementMet(c.stage, profile) {
      invalid := Some(RequirementNotMet);
      target := c.stage;
    }
  }

  method ShapeOutgoing(c: Conversation, input: TurnInput, target: Stage, refused: bool, profile: Profile)
    returns (outgoing: seq<Message>, sendReply: bool)
    requires profile == TurnProfile(c, input.semantic) && target == TargetOf(c, input.semantic, input.reply)
    requires refused == TurnedDown(c, input.semantic, input.reply)
    ensures outgoing == Outgoing(c, input)
    ensures sendReply == Decide(c, input).sendReply
  {
    var TurnInput(sem, reply, texts) := input;
    hide RequirementMet, Merge, Mentions, Has, TurnedDown, Chosen;
    var completedByFields :=
      sem.messageType != Empty && !sem.hasUnresolvedInterrupt && RequirementMet(c.stage, profile);
    outgoing := if sem.messageType == AskedNotToContact then [] else reply.messages;
    sendReply := reply.sendReply && sem.messageType != AskedNotToContact;
    if refused {
      outgoing := if HasQuestion(c.stage) then [TextMessage(texts.question(c.stage))] else [];
      sendReply := true;
    } else if target == Lost && outgoing == [] {
      outgoing := [TextMessage(texts.lost)];
    } else if target == HumanHandoff {
      if outgoing == [] {
        outgoing := [TextMessage(texts.handoff)];
      }
    } else if TypeOf(target) == Action {
      outgoing := [];
      sendReply := true;
    } else if target != c.stage {
      if completedByFields {
        outgoing := [];
      }
      if HasQuestion(target) && !Mentions(outgoing, texts.question(target)) {
        outgoing := outgoing + [TextMessage(texts.question(target))];
      }
    } else if sendReply && outgoing == [] && HasQuestion(c.stage) && sem.messageType != Empty {
      outgoing := outgoing + [TextMessage(texts.question(c.stage))];
    }
  }

  // Before the loop runs, the target is either unchanged, terminal, or one step ahead.
  lemma ChoiceSteps(c: Conversation, sem: Semantic, reply: Reply, target: Stage)
    requires target ==
             if sem.messageType == AskedNotToContact then DoNotContact
             else if sem.messageType == HardRefusal then Lost
             else if HandoffAsked(c, reply) then HumanHandoff
             else if MayLeave(c, sem) then NextStage(c.stage, TurnProfile(c, sem)) else c.stage
    ensures Chosen(c, sem, reply) ==
            if target != c.stage && !sem.hasUnresolvedInterrupt then Advance(target, TurnProfile(c, sem)) else target
  {
    var p := TurnProfile(c, sem);
    hide CanTransition, Merge, ReachesTarget;
    if RequirementMet(c.stage, p) && TypeOf(c.stage) == Waiting {
      NextClimbs(c.stage, p);
    }
  }

  // The controller's two checks together turn a target down exactly when TurnedDown says;
  // the second check (requirement of the stage being left) never fires.
  lemma TurnedDownExactly(c: Conversation, sem: Semantic, reply: Reply)
    ensures var target := Chosen(c, sem, reply);
            var p := TurnProfile(c, sem);
            && (Accepts(c.stage, target, p) <==> !TurnedDown(c, sem, reply))
            && (!TurnedDown(c, sem, reply) && target != c.stage && !Terminal(target) ==> RequirementMet(c.stage, p))
  {
    var p := TurnProfile(c, sem);
    var target := Chosen(c, sem, reply);
    hide Merge;
    if Terminal(c.stage) {
      OnlySelfFromTerminal(c.stage, target, p);
    } else if TypeOf(c.stage) == Action {
      ActionEdges(c.stage, target, p);
    } else if target != c.stage && target != Lost && target != DoNotContact && target != HumanHandoff {
      NextClimbs(c.stage, p);
      LoopsAgree(c.stage, p);
    } else if MayLeave(c, sem) && RequirementMet(c.stage, p) {
      LoopsAgree(c.stage, p);
    }
  }

  lemma OnlySelfFromTerminal(s: Stage, target: Stage, p: Profile)
    requires Terminal(s)
    ensures Accepts(s, target, p) <==> target == s
  {
  }

  lemma ActionEdges(s: Stage, target: Stage, p: Profile)
    requires TypeOf(s) == Action && (target == s || target in {Lost, DoNotContact, HumanHandoff})
    ensures Accepts(s, target, p) <==> target != s
  {
    if target == s && ReachesTarget(s, target, p) {
      ReachedIsAbove(s, target, p);
    }
  }

  // combine_text_and_question
  function CombineTextAndQuestion(text: string, question: string): string {
    var cleaned := Strip(text);
    if cleaned == "" then question
    else cleaned + (if cleaned[|cleaned| - 1] in {'.', '!', '?'} then " " else ". ") + question
  }

  // The text comes first, closed as a sentence, then a space and the question.
  lemma CombinedEndsWithQuestion(text: string, question: string)
    ensures var r := CombineTextAndQuestion(text, question);
            && Contains(r, question)
            && Strip(text) <= r && |question| <= |r| && r[|r| - |question|..] == question
            && (Strip(text) == "" ==> r == question)
            && (Strip(text) != "" ==>
                  var before := r[..|r| - |question|];
                  && |before| <= |Strip(text)| + 2 && |before| >= 2 && before[|before| - 1] == ' '
                  && before[|before| - 2] in {'.', '!', '?'}
                  && (|before| == |Strip(text)| + 1 <==> Strip(text)[|Strip(text)| - 1] in {'.', '!', '?'})
                  && (|before| == |Strip(text)| + 2 ==> before[|Strip(text)|] == '.'))
  {
    var cleaned := Strip(text);
    if cleaned == "" {
      ContainsInner("", question, "");
      assert "" + question + "" == question;
    } else {
      var pre := cleaned + (if cleaned[|cleaned| - 1] in {'.', '!', '?'} then " " else ". ");
      ContainsInner(pre, question, "");
      assert pre + question + "" == CombineTextAndQuestion(text, question);
      assert CombineTextAndQuestion(text, question)[..|pre|] == pre;
    }
  }

  function WithItem<T(==)>(xs: seq<T>, x: Option<T>): seq<T> {
    if x.Some? && x.value !in xs then xs + [x.value] else xs
  }

  // What an action stage sends before the question of the stage it leads to.
  function ActionMessages(c: Conversation, stage: Stage, texts: Texts): seq<Message> {
    (if stage == SupportSmalltalk then [TextMessage(texts.smalltalk)] else []) +
    (if VoicePack(stage).Some? && VoicePack(stage).value !in c.voicePacks
     then [Message(VoicePackKind, None, VoicePack(stage), None)] else []) +
    (if Template(stage).Some? && Template(stage).value !in c.templates then [TextMessage(texts.template)] else [])
  }

  function ExecutorMessages(c: Conversation, d: Decision, texts: Texts): seq<Message> {
    if TypeOf(d.target) != Action then d.outgoing
    else if d.target == SupportSmalltalk then
      d.outgoing + [TextMessage(CombineTextAndQuestion(texts.smalltalk, texts.question(WaitingAfter(d.target))))]
    else
      d.outgoing + ActionMessages(c, d.target, texts) + [TextMessage(texts.question(WaitingAfter(d.target)))]
  }

  function StageAfter(target: Stage): Stage {
    if TypeOf(target) == Action then WaitingAfter(target) else target
  }

  function Execute(c: Conversation, d: Decision, texts: Texts): TurnResult {
    var stage := StageAfter(d.target);
    TurnResult(
      Conversation(stage,
                   if d.target == SupportSmalltalk then d.profile.(smalltalkDone := Some(true)) else d.profile,
                   WithItem(c.voicePacks, VoicePack(d.target)),
                   WithItem(c.templates, Template(d.target)),
                   d.handoffRequired),
      StatusForStage(stage),
      if d.sendReply then ExecutorMessages(c, d, texts) else [])
  }

  function Turn(c: Conversation, input: TurnInput): TurnResult {
    Execute(c, Decide(c, input), input.texts)
  }

  // The executor as it runs, growing its lists and patching the last message in place.
  method ActionExecutor(c: Conversation, d: Decision, texts: Texts) returns (r: TurnResult)
    ensures r == Execute(c, d, texts)
  {
    hide CombineTextAndQuestion;
    var stage := d.target;
    var outgoing := d.outgoing;
    var sentVoicePacks := c.voicePacks;
    var sentTemplates := c.templates;
    var profile := d.profile;
    if TypeOf(stage) == Action {
      var actionStage := stage;
      if stage == SupportSmalltalk {
        outgoing := outgoing + [TextMessage(texts.smalltalk)];
        profile := profile.(smalltalkDone := Some(true));
      }
      if VoicePack(stage).Some? && VoicePack(stage).value !in sentVoicePacks {
        outgoing := outgoing + [Message(VoicePackKind, None, VoicePack(stage), None)];
        sentVoicePacks := sentVoicePacks + [VoicePack(stage).value];
      }
      if Template(stage).Some? && Template(stage).value !in sentTemplates {
        outgoing := outgoing + [TextMessage(texts.template)];
        sentTemplates := sentTemplates + [Template(stage).value];
      }
      stage := WaitingAfter(stage);
      if HasQuestion(stage) {
        if actionStage == SupportSmalltalk && outgoing != [] && outgoing[|outgoing| - 1].kind == TextKind {
          var last := outgoing[|outgoing| - 1];
          outgoing := outgoing[|outgoing| - 1 :=
            last.(text := Some(CombineTextAndQuestion(last.text.value, texts.question(stage))))];
        } else {
          outgoing := outgoing + [TextMessage(texts.question(stage))];
        }
      }
    }
    r := TurnResult(Conversation(stage, profile, sentVoicePacks, sentTemplates, d.handoffRequired),
                    StatusForStage(stage),
                    if d.sendReply then outgoing else []);
  }

  // The graph run: the controller, then the executor.
  method RunGraph(c: Conversation, input: TurnInput) returns (r: TurnResult)
    ensures r == Turn(c, input)
  {
    var d := StateController(c, input);
    r := ActionExecutor(c, d, input.texts);
  }

  // ---- The next question is asked ----

  predicate Asks(ms: seq<Message>, q: string) {
    exists m <- ms :: m.kind == TextKind && m.text.Some? && Has(m.text.value, q)
  }

  // The one way the next question gets lost: the reply already mentions it, but only in
  // messages that are not sent as text, so the controller does not add it.
  predicate QuestionShadowed(c: Conversation, input: TurnInput, q: string) {
    && TypeOf(Decide(c, input).target) != Action
    && !CompletedByFields(c, input.semantic)
    && Mentions(input.reply.messages, q) && !Asks(input.reply.messages, q)
  }

  // A turn that ends in a different waiting stage with replies on sends that stage's question,
  // exactly unless the reply shadows it.
  lemma NextQuestionAsked(c: Conversation, input: TurnInput)
    requires var r := Turn(c, input);
             r.after.stage != c.stage && TypeOf(r.after.stage) == Waiting && Decide(c, input).sendReply
    ensures var r := Turn(c, input);
            var q := input.texts.question(r.after.stage);
            Asks(r.emitted, q) <==> !QuestionShadowed(c, input, q)
  {
    var d := Decide(c, input);
    if TypeOf(d.target) == Action {
      ActionAsks(c, d, input.texts);
    } else {
      DirectAsks(c, input);
    }
  }

  lemma AskedByLast(ms: seq<Message>, m: Message, q: string)
    requires m.kind == TextKind && m.text.Some? && Contains(m.text.value, q)
    ensures Asks(ms + [m], q)
  {
    assert (ms + [m])[|ms|] == m;
  }

  lemma ActionAsks(c: Conversation, d: Decision, texts: Texts)
    requires TypeOf(d.target) == Action && d.sendReply
    ensures Asks(Execute(c, d, texts).emitted, texts.question(WaitingAfter(d.target)))
  {
    var q := texts.question(WaitingAfter(d.target));
    hide CombineTextAndQuestion, ActionMessages, WithItem;
    if d.target == SupportSmalltalk {
      CombinedEndsWithQuestion(texts.smalltalk, q);
      AskedByLast(d.outgoing, TextMessage(CombineTextAndQuestion(texts.smalltalk, q)), q);
    } else {
      SelfContained(q);
      AskedByLast(d.outgoing + ActionMessages(c, d.target, texts), TextMessage(q), q);
    }
  }

  lemma SelfContained(q: string)
    ensures Contains(q, q)
  {
    assert OccursAt(q, q, 0);
  }

  lemma DirectAsks(c: Conversation, input: TurnInput)
    requires var d := Decide(c, input);
             d.target != c.stage && TypeOf(d.target) == Waiting && d.sendReply
    ensures var q := input.texts.question(Decide(c, input).target);
            Asks(Outgoing(c, input), q) <==> !QuestionShadowed(c, input, q)
  {
    var d := Decide(c, input);
    var q := input.texts.question(d.target);
    hide TurnedDown, Chosen, RequirementMet, Merge, Has;
    assert input.semantic.messageType != AskedNotToContact;
    var kept := if CompletedByFields(c, input.semantic) then [] else input.reply.messages;
    if Mentions(kept, q) {
      assert Outgoing(c, input) == kept;
    } else {
      SelfContained(q);
      AskedByLast(kept, TextMessage(q), q);
      assert Outgoing(c, input) == kept + [TextMessage(q)];
    }
  }

  // A reply that repeats the next question in a message of another kind does lose it.
  lemma ShadowedQuestionIsLost(texts: Texts, q: string)
    requires texts.question(AgeCheck) == q
    ensures var sem := Semantic(PartialAnswer, false, true, EMPTY_PROFILE.(interestConfirmed := Some(true)));
            var c := Conversation(InterestCheck, EMPTY_PROFILE, [], [], false);
            var r := Turn(c, TurnInput(sem, Reply(true, false, [Message(OtherKind, Some(q), None, None)]), texts));
            r.after.stage == AgeCheck && !Asks(r.emitted, q)
  {
    var sem := Semantic(PartialAnswer, false, true, EMPTY_PROFILE.(interestConfirmed := Some(true)));
    var c := Conversation(InterestCheck, EMPTY_PROFILE, [], [], false);
    var only := Message(OtherKind, Some(q), None, None);
    var input := TurnInput(sem, Reply(true, false, [only]), texts);
    hide Has;
    assert Chosen(c, sem, input.reply) == AgeCheck;
    assert Turn(c, input).after.stage == AgeCheck;
    SelfContained(q);
    assert only in input.reply.messages;
    assert QuestionShadowed(c, input, q);
    NextQuestionAsked(c, input);
  }
}
