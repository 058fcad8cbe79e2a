// What the facts of a profile decide, stated on the fields themselves: when a stage is complete, where
// a turn ends, and what it sends.
module FunnelFacts {
  import opened Basics
  import opened FunnelPolicy
  import opened FunnelGraph
  import opened FunnelRuns

  datatype Field =
    | InterestConfirmed | AgeConfirmed | SalaryScheduleInterest | QuestionsResolved | ProfileInfo | RoomAvailable
    | PhoneModel | InterviewInterest | CandidateName | PhoneNumber | InterviewDayConfirmed | InterviewTime
    | CustomInterviewDatetime

  // The required_fields of the stage table.
  function RequiredFields(s: Stage): set<Field> {
    match s
    case InterestCheck | TryInterestCheck => {InterestConfirmed}
    case AgeCheck => {AgeConfirmed}
    case SalaryScheduleOffer => {SalaryScheduleInterest}
    case PostEquipmentQuestionsCheck => {QuestionsResolved}
    case ProfileThemeCheck => {ProfileInfo}
    case RoomAvailableCheck => {RoomAvailable}
    case EquipmentPhoneCheck => {PhoneModel}
    case InterviewOffer => {InterviewInterest}
    case ContactCollection => {CandidateName, PhoneNumber}
    case InterviewDayCheck => {InterviewDayConfirmed}
    case InterviewTimeCheck => {InterviewTime}
    case InterviewCustomTime => {CustomInterviewDatetime}
    case _ => {}
  }

  // A field that says yes, or says something.
  predicate Given(p: Profile, f: Field) {
    match f
    case InterestConfirmed => p.interestConfirmed == Some(true)
    case AgeConfirmed => p.ageConfirmed == Some(true)
    case SalaryScheduleInterest => p.salaryScheduleInterest == Some(true)
    case QuestionsResolved => p.questionsResolved == Some(true)
    case ProfileInfo => p.profileInfo.Some? && p.profileInfo.value != ""
    case RoomAvailable => p.roomAvailable == Some(true)
    case PhoneModel => p.phoneModel.Some? && p.phoneModel.value != ""
    case InterviewInterest => p.interviewInterest == Some(true)
    case CandidateName => p.candidateName.Some? && p.candidateName.value != ""
    case PhoneNumber => p.phoneNumber.Some? && p.phoneNumber.value != ""
    case InterviewDayConfirmed => p.interviewDayConfirmed == Some(true)
    case InterviewTime => p.interviewTime.Some? && p.interviewTime.value != ""
    case CustomInterviewDatetime => p.customInterviewDatetime.Some? && p.customInterviewDatetime.value != ""
  }

  // All required fields are given; the age must also be 18, and any interview day will do.
  predicate Complete(s: Stage, p: Profile) {
    || ((forall f <- RequiredFields(s) :: Given(p, f)) && (s == AgeCheck ==> p.age.Some? && p.age.value >= 18))
    || (s == InterviewDayCheck && p.interviewDay.Some? && p.interviewDay.value != "")
  }

  // The requirement that the code tests stage by stage is the table's, with those two exceptions.
  lemma RequirementIsTheTable(s: Stage, p: Profile)
    ensures RequirementMet(s, p) <==> Complete(s, p)
  {
    match s {
      case InterestCheck | TryInterestCheck => assert RequiredFields(s) == {InterestConfirmed};
      case ContactCollection => assert CandidateName in RequiredFields(s) && PhoneNumber in RequiredFields(s);
      case AgeCheck => assert AgeConfirmed in RequiredFields(s);
      case SalaryScheduleOffer => assert SalaryScheduleInterest in RequiredFields(s);
      case PostEquipmentQuestionsCheck => assert QuestionsResolved in RequiredFields(s);
      case ProfileThemeCheck => assert ProfileInfo in RequiredFields(s);
      case RoomAvailableCheck => assert RoomAvailable in RequiredFields(s);
      case EquipmentPhoneCheck => assert PhoneModel in RequiredFields(s);
      case InterviewOffer => assert InterviewInterest in RequiredFields(s);
      case InterviewDayCheck => assert InterviewDayConfirmed in RequiredFields(s);
      case InterviewTimeCheck => assert InterviewTime in RequiredFields(s);
      case InterviewCustomTime => assert CustomInterviewDatetime in RequiredFields(s);
      case _ =>
    }
  }

  // ---- Where a turn ends ----

  // The waiting stages in order, for a profile: after the interview day comes the offered time if the
  // day was confirmed, and a time of the candidate's own otherwise.
  function Path(p: Profile): seq<Stage> {
    [InterestCheck, AgeCheck, SalaryScheduleOffer, PostEquipmentQuestionsCheck, ProfileThemeCheck, RoomAvailableCheck,
     EquipmentPhoneCheck, InterviewOffer, ContactCollection, InterviewDayCheck,
     if p.interviewDayConfirmed == Some(true) then InterviewTimeCheck else InterviewCustomTime, HumanHandoff]
  }

  // Stages that are entered with something to send first; a turn stops there.
  predicate Stop(s: Stage) {
    s in {SalaryScheduleOffer, PostEquipmentQuestionsCheck, RoomAvailableCheck}
  }

  // From place k to place j over complete stages, without passing a stop.
  predicate Walk(p: Profile, from: Stage, k: nat, j: nat)
    requires k < j <= 11
  {
    && Complete(from, p) && (forall m :: k < m < j ==> Complete(Path(p)[m], p) && !Stop(Path(p)[m]))
  }

  lemma AdvanceRests(s: Stage, p: Profile)
    requires TypeOf(s) != Waiting
    ensures Advance(s, p) == s
  {
  }

  // A complete waiting stage leads to the next place, over an action stage exactly if that is a stop.
  lemma NextPlace(s: Stage, p: Profile)
    requires TypeOf(s) == Waiting && !Legacy(s) && Complete(s, p)
    ensures var n := NextStage(s, p);
            && StageAfter(n) == Path(p)[Height(s) + 1] && (TypeOf(n) == Action <==> Stop(StageAfter(n)))
            && (TypeOf(n) == Action ==> Advance(n, p) == n) && (n == HumanHandoff ==> Advance(n, p) == n)
            && !Legacy(n) && Height(StageAfter(n)) == Height(s) + 1
  {
    RequirementIsTheTable(s, p);
    hide Complete, RequirementMet, Advance;
    var n := NextStage(s, p);
    if TypeOf(n) != Waiting {
      AdvanceRests(n, p);
    }
  }

  lemma OneHopWalk(p: Profile, s: Stage, k: nat)
    requires Complete(s, p) && k < 11
    ensures Walk(p, s, k, k + 1)
  {
  }

  lemma WalkFurther(p: Profile, s: Stage, n: Stage, k: nat, j: nat)
    requires Complete(s, p) && k + 1 < j <= 11 && n == Path(p)[k + 1] && !Stop(n) && Walk(p, n, k + 1, j)
    ensures Walk(p, s, k, j)
  {
    hide Complete, Path, Stop;
  }

  lemma {:induction false} AdvanceWalks(s: Stage, p: Profile)
    requires TypeOf(s) == Waiting && !Legacy(s) && Complete(s, p)
    ensures var t := StageAfter(Advance(NextStage(s, p), p));
            var j := Height(t);
            && Height(s) < j <= 11 && t == Path(p)[j] && Walk(p, s, Height(s), j)
            && (j < 11 ==> Stop(t) || !Complete(t, p))
    decreases 11 - Height(s)
  {
    var n := NextStage(s, p);
    NextPlace(s, p);
    RequirementIsTheTable(n, p);
    hide Complete, RequirementMet, NextStage, Path, Height, Stop, Walk;
    if TypeOf(n) == Waiting && RequirementMet(n, p) {
      NextPlace(n, p);
      AdvanceWalks(n, p);
      WalkFurther(p, s, n, Height(s), Height(StageAfter(Advance(NextStage(n, p), p))));
    } else {
      OneHopWalk(p, s, Height(s));
    }
  }

  // What an open conversation is asked for beside its stage: to stop, or to hand over.
  predicate AskedOut(c: Conversation, sem: Semantic, reply: Reply) {
    sem.messageType in {AskedNotToContact, HardRefusal} || reply.handoffRequired || c.handoffRequired
  }

  // A turn of an open conversation moves on exactly if something was said, its stage is complete and
  // nothing is left unanswered, unless it is a partial answer; whether the analyzer calls the stage's
  // goal satisfied never matters.
  predicate MovesOn(c: Conversation, sem: Semantic) {
    && sem.messageType != Empty && Complete(c.stage, TurnProfile(c, sem))
    && (sem.hasUnresolvedInterrupt ==> sem.messageType == PartialAnswer)
  }

  // Where every turn of an open conversation ends: a refusal or a handoff first; otherwise it stays, or
  // goes on over complete stages to the first that is incomplete or entered with something to send, one
  // stage only if something is left unanswered.
  lemma WhereTurnsEnd(c: Conversation, input: TurnInput)
    requires Resting(c.stage) && !Terminal(c.stage)
    ensures var TurnInput(sem, reply, _) := input;
            var p := TurnProfile(c, sem);
            var t := Turn(c, input).after.stage;
            var k, j := Height(c.stage), Height(t);
            if sem.messageType == AskedNotToContact then t == DoNotContact
            else if sem.messageType == HardRefusal then t == Lost
            else if AskedOut(c, sem, reply) then t == HumanHandoff
            else if !MovesOn(c, sem) then t == c.stage
            else
              && k < j <= 11 && t == Path(p)[j] && Walk(p, c.stage, k, j)
              && (if sem.hasUnresolvedInterrupt then j == k + 1 else j < 11 ==> Stop(t) || !Complete(t, p))
  {
    var p := TurnProfile(c, input.semantic);
    RequirementIsTheTable(c.stage, p);
    TargetOfOpen(c, input);
    hide Complete, RequirementMet, NextStage, Path, Stop, Advance, Height, StageAfter, Decide;
    if !AskedOut(c, input.semantic, input.reply) && MovesOn(c, input.semantic) {
      NextPlace(c.stage, p);
      AdvanceWalks(c.stage, p);
    }
  }

  lemma TargetOfOpen(c: Conversation, input: TurnInput)
    requires Resting(c.stage) && !Terminal(c.stage)
    ensures var TurnInput(sem, reply, _) := input;
            var p := TurnProfile(c, sem);
            var n := NextStage(c.stage, p);
            TypeOf(c.stage) == Waiting &&
            Decide(c, input).target ==
            if sem.messageType == AskedNotToContact then DoNotContact
            else if sem.messageType == HardRefusal then Lost
            else if AskedOut(c, sem, reply) then HumanHandoff
            else if sem.messageType == Empty || !RequirementMet(c.stage, p) ||
                    (sem.hasUnresolvedInterrupt && sem.messageType != PartialAnswer) then c.stage
            else if sem.hasUnresolvedInterrupt then n else Advance(n, p)
  {
    TurnedDownExactly(c, input.semantic, input.reply);
    hide Merge, Outgoing, RequirementMet, NextStage, Advance, Accepts;
  }

  // ---- Over whole runs ----

  // Turn i took effect and ended at s, which the conversation was not at before.
  predicate ArrivedAt(checkpointed: bool, evs: seq<Event>, s: Stage, i: nat) {
    && i < |evs| && StageOf(checkpointed, evs[..i]) != s && StageOf(checkpointed, evs[..i + 1]) == s
    && (checkpointed || !evs[i].superseded)
  }

  function ProfileAt(checkpointed: bool, evs: seq<Event>, i: nat): Profile
    requires i < |evs|
  {
    TurnProfile(Entry(Run(checkpointed, evs[..i])), evs[i].input.semantic)
  }

  lemma ArrivalExtends(checkpointed: bool, evs: seq<Event>, s: Stage, i: nat)
    requires evs != [] && ArrivedAt(checkpointed, evs[..|evs| - 1], s, i)
    ensures ArrivedAt(checkpointed, evs, s, i)
    ensures ProfileAt(checkpointed, evs, i) == ProfileAt(checkpointed, evs[..|evs| - 1], i)
  {
    hide StageOf, Run, TurnProfile, Entry;
    var before := evs[..|evs| - 1];
    PrefixOfPrefix(evs, i, |evs| - 1);
    PrefixOfPrefix(evs, i + 1, |evs| - 1);
    assert before[..i] == evs[..i] && before[..i + 1] == evs[..i + 1] && before[i] == evs[i];
  }

  // A conversation at interview_time_check was taken there by a turn with the day confirmed; one at
  // interview_custom_time by a turn with another day and no confirmation.
  lemma {:induction false} DayDecidesTheTime(checkpointed: bool, evs: seq<Event>)
    requires StageOf(checkpointed, evs) in {InterviewTimeCheck, InterviewCustomTime}
    ensures var s := StageOf(checkpointed, evs);
            exists i :: ArrivedAt(checkpointed, evs, s, i) &&
              var p := ProfileAt(checkpointed, evs, i);
              if s == InterviewTimeCheck then p.interviewDayConfirmed == Some(true)
              else p.interviewDayConfirmed != Some(true) && p.interviewDay.Some? && p.interviewDay.value != ""
  {
    hide Turn, TurnProfile;
    if evs == [] {
      assert false;
    } else {
      var n := |evs| - 1;
      var before := evs[..n];
      var s := StageOf(checkpointed, evs);
      if StageOf(checkpointed, before) == s {
        DayDecidesTheTime(checkpointed, before);
        var i :| ArrivedAt(checkpointed, before, s, i) &&
          var p := ProfileAt(checkpointed, before, i);
          if s == InterviewTimeCheck then p.interviewDayConfirmed == Some(true)
          else p.interviewDayConfirmed != Some(true) && p.interviewDay.Some? && p.interviewDay.value != "";
        ArrivalExtends(checkpointed, evs, s, i);
      } else {
        LastTurnDecidesTheTime(checkpointed, evs);
      }
    }
  }

  lemma LastTurnDecidesTheTime(checkpointed: bool, evs: seq<Event>)
    requires evs != [] && StageOf(checkpointed, evs) in {InterviewTimeCheck, InterviewCustomTime}
    requires StageOf(checkpointed, evs[..|evs| - 1]) != StageOf(checkpointed, evs)
    ensures var n, s := |evs| - 1, StageOf(checkpointed, evs);
            var p := ProfileAt(checkpointed, evs, n);
            && ArrivedAt(checkpointed, evs, s, n)
            && if s == InterviewTimeCheck then p.interviewDayConfirmed == Some(true)
               else p.interviewDayConfirmed != Some(true) && p.interviewDay.Some? && p.interviewDay.value != ""
  {
    hide Turn, TurnProfile, Complete;
    var n := |evs| - 1;
    var g := Run(checkpointed, evs[..n]);
    RunIsSound(checkpointed, evs[..n]);
    StepIsSound(g, checkpointed, evs[n]);
    EntryIsResting(g);
    assert evs[..n + 1] == evs;
    var p := ProfileAt(checkpointed, evs, n);
    WhereTurnsEnd(Entry(g), evs[n].input);
    assert Walk(p, Entry(g).stage, Height(Entry(g).stage), 10);
    assert Path(p)[9] == InterviewDayCheck && (Height(Entry(g).stage) == 9 ==> Entry(g).stage == InterviewDayCheck);
    assert Complete(InterviewDayCheck, p);
    DayFields(p);
  }

  lemma DayFields(p: Profile)
    requires Complete(InterviewDayCheck, p)
    ensures p.interviewDayConfirmed == Some(true) || (p.interviewDay.Some? && p.interviewDay.value != "")
  {
    assert InterviewDayConfirmed in RequiredFields(InterviewDayCheck);
  }

  // Every waiting stage below the stage reached had its required fields given in the turn that passed it.
  lemma FactsOnTheWay(checkpointed: bool, evs: seq<Event>, w: Stage)
    requires TypeOf(w) == Waiting && !Legacy(w) && Height(w) < 10
    requires var s := StageOf(checkpointed, evs); Height(w) < Height(s) && !Terminal(s)
    ensures exists i :: PassedAt(checkpointed, evs, w, i) && Complete(w, ProfileAt(checkpointed, evs, i))
  {
    CompletedOnTheWay(checkpointed, evs, w);
    var i :| PassedAt(checkpointed, evs, w, i);
    RequirementIsTheTable(w, ProfileAt(checkpointed, evs, i));
    hide Run, StageOf, RequirementMet, Complete;
  }

  // What the persisted status tells an operator: handoff and closed say which final stage the
  // conversation is in, active that it is open.
  lemma StatusTells(checkpointed: bool, evs: seq<Event>)
    ensures var r := Run(checkpointed, evs).runtime;
            && (r.status == HandoffStatus <==> r.conversation.stage == HumanHandoff)
            && (r.status == ClosedStatus <==> r.conversation.stage in {Lost, DoNotContact})
  {
    RunIsSound(checkpointed, evs);
    hide Run;
  }

  // ---- What a turn remembers and sends ----

  predicate Replaces<T(==)>(now: Option<T>, found: Option<T>, known: Option<T>) {
    (found.Some? ==> now == found) && (found.None? ==> now == known)
  }

  // What the analyzer found replaces what was known, field by field; what it did not find stays. Only
  // the smalltalk stage itself marks smalltalk as done.
  lemma FactsReplaceWhatWasKnown(c: Conversation, input: TurnInput)
    ensures var known, found, p := c.profile, input.semantic.facts, Turn(c, input).after.profile;
            && Replaces(p.interestConfirmed, found.interestConfirmed, known.interestConfirmed)
            && Replaces(p.age, found.age, known.age)
            && Replaces(p.ageConfirmed, found.ageConfirmed, known.ageConfirmed)
            && Replaces(p.salaryScheduleInterest, found.salaryScheduleInterest, known.salaryScheduleInterest)
            && Replaces(p.questionsResolved, found.questionsResolved, known.questionsResolved)
            && Replaces(p.profileInfo, found.profileInfo, known.profileInfo)
            && Replaces(p.roomAvailable, found.roomAvailable, known.roomAvailable)
            && Replaces(p.phoneModel, found.phoneModel, known.phoneModel)
            && Replaces(p.interviewInterest, found.interviewInterest, known.interviewInterest)
            && Replaces(p.candidateName, found.candidateName, known.candidateName)
            && Replaces(p.phoneNumber, found.phoneNumber, known.phoneNumber)
            && Replaces(p.interviewDayConfirmed, found.interviewDayConfirmed, known.interviewDayConfirmed)
            && Replaces(p.interviewDay, found.interviewDay, known.interviewDay)
            && Replaces(p.interviewTime, found.interviewTime, known.interviewTime)
            && Replaces(p.customInterviewDatetime, found.customInterviewDatetime, known.customInterviewDatetime)
            && p.smalltalkDone ==
               (if Decide(c, input).target == SupportSmalltalk then Some(true) else known.smalltalkDone)
  {
    hide Outgoing, TurnedDown, Chosen;
  }

  // What an action stage has to send before the waiting stage it leads to asks its question.
  function Delivered(c: Conversation, t: Stage, texts: Texts): seq<Message> {
    match t
    case SalaryScheduleOffer => PackOnce(c, "work_intro") + [TextMessage(texts.question(t))]
    case PostEquipmentQuestionsCheck => PackOnce(c, "salary_schedule") + [TextMessage(texts.question(t))]
    case _ => [TextMessage(CombineTextAndQuestion(texts.smalltalk, texts.question(t)))]
  }

  function PackOnce(c: Conversation, pack: string): seq<Message> {
    if pack in c.voicePacks then [] else [Message(VoicePackKind, None, Some(pack), None)]
  }

  // What a turn of an open conversation sends, by where it ends. Nothing to who asked not to be
  // contacted; deliveries even with replies off; otherwise the reply, with a closing or handoff text or
  // the current question if the reply is empty, and the next question if the turn moved on. A reply is
  // dropped when the stage it was written for was completed by fields.
  lemma WhatATurnSends(c: Conversation, input: TurnInput)
    requires Resting(c.stage) && !Terminal(c.stage)
    ensures var TurnInput(sem, reply, texts) := input;
            var r := Turn(c, input);
            var t := r.after.stage;
            var dropped := sem.messageType != Empty && !sem.hasUnresolvedInterrupt &&
                           Complete(c.stage, TurnProfile(c, sem));
            var kept := if dropped then [] else reply.messages;
            r.emitted ==
            if sem.messageType == AskedNotToContact then []
            else if Stop(t) && t != c.stage then Delivered(c, t, texts)
            else if !reply.sendReply then []
            else if t == c.stage then
              if reply.messages == [] && sem.messageType != Empty then [TextMessage(texts.question(t))]
              else reply.messages
            else if t == Lost then if reply.messages == [] then [TextMessage(texts.lost)] else kept
            else if t == HumanHandoff then
              if reply.messages == [] then [TextMessage(texts.handoff)] else reply.messages
            else if exists m <- kept :: m.text.Some? && Contains(m.text.value, texts.question(t)) then kept
            else kept + [TextMessage(texts.question(t))]
  {
    RequirementIsTheTable(c.stage, TurnProfile(c, input.semantic));
    TargetOfOpen(c, input);
    StopsAreDelivered(c, input);
    NotTurnedDown(c, input);
    FinalsAreAskedFor(c, input);
    hide Complete, RequirementMet, TurnProfile, CombineTextAndQuestion, TurnedDown, Stop, Delivered, Decide;
    hide NextStage, Advance;
    if TypeOf(Decide(c, input).target) == Action {
      DeliveryIsSent(c, input);
      hide Turn;
    } else {
      DirectIsSent(c, input);
      hide Turn, Has;
    }
  }

  lemma FinalsAreAskedFor(c: Conversation, input: TurnInput)
    requires Resting(c.stage) && !Terminal(c.stage)
    ensures var target := Decide(c, input).target;
            && (input.semantic.messageType == AskedNotToContact <==> target == DoNotContact)
            && (TypeOf(target) == Final ==> target in {DoNotContact, Lost, HumanHandoff})
  {
    var p := TurnProfile(c, input.semantic);
    TargetOfOpen(c, input);
    TargetMoves(c, input);
    if RequirementMet(c.stage, p) {
      OneHop(c.stage, p);
      AdvanceClimbs(NextStage(c.stage, p), p);
    }
    hide RequirementMet, NextStage, Advance, Decide, Height, TurnProfile;
  }

  lemma NotTurnedDown(c: Conversation, input: TurnInput)
    requires Resting(c.stage) && !Terminal(c.stage)
    ensures !TurnedDown(c, input.semantic, input.reply)
  {
  }

  lemma NextIsNoStop(s: Stage, p: Profile)
    requires TypeOf(s) == Waiting && !Legacy(s) && RequirementMet(s, p)
    ensures var n := NextStage(s, p);
            !Legacy(n) && n != s && (TypeOf(n) == Waiting ==> !Stop(n))
  {
    hide RequirementMet;
  }

  lemma {:induction false} AdvanceAvoidsStops(s: Stage, p: Profile)
    requires !Legacy(s) && (TypeOf(s) == Waiting ==> !Stop(s))
    ensures !Legacy(Advance(s, p)) && (TypeOf(Advance(s, p)) != Action ==> !Stop(Advance(s, p)))
    decreases TOP - Rank(s)
  {
    if TypeOf(s) == Waiting && RequirementMet(s, p) {
      NextClimbs(s, p);
      NextIsNoStop(s, p);
      hide RequirementMet, NextStage, Rank, Stop;
      AdvanceAvoidsStops(NextStage(s, p), p);
    }
  }

  // A stop is entered over its action stage, and an action stage leads to a stop.
  lemma StopsAreDelivered(c: Conversation, input: TurnInput)
    requires Resting(c.stage) && !Terminal(c.stage)
    ensures var target := Decide(c, input).target;
            && !Legacy(target)
            && (TypeOf(target) == Action <==> Stop(StageAfter(target)) && StageAfter(target) != c.stage)
  {
    var p := TurnProfile(c, input.semantic);
    var n := NextStage(c.stage, p);
    TargetOfOpen(c, input);
    TargetMoves(c, input);
    if RequirementMet(c.stage, p) {
      NextIsNoStop(c.stage, p);
      AdvanceAvoidsStops(n, p);
    }
    hide RequirementMet, NextStage, Advance, Decide, Rank, TurnProfile;
  }

  lemma DeliveryIsSent(c: Conversation, input: TurnInput)
    requires TypeOf(Decide(c, input).target) == Action && !Legacy(Decide(c, input).target)
    requires !TurnedDown(c, input.semantic, input.reply)
    ensures Turn(c, input).emitted == Delivered(c, Turn(c, input).after.stage, input.texts)
    ensures Turn(c, input).after.stage == StageAfter(Decide(c, input).target)
  {
    NothingElseIsSent(c, input);
    ExecutorDelivers(c, Decide(c, input), input.texts);
    hide Decide, ExecutorMessages, Delivered;
  }

  lemma NothingElseIsSent(c: Conversation, input: TurnInput)
    requires TypeOf(Decide(c, input).target) == Action && !TurnedDown(c, input.semantic, input.reply)
    ensures Decide(c, input).outgoing == [] && Decide(c, input).sendReply
  {
    hide TurnedDown, Chosen, Mentions, Merge;
  }

  lemma ExecutorDelivers(c: Conversation, d: Decision, texts: Texts)
    requires TypeOf(d.target) == Action && !Legacy(d.target) && d.outgoing == []
    ensures ExecutorMessages(c, d, texts) == Delivered(c, StageAfter(d.target), texts)
  {
    hide CombineTextAndQuestion;
    assert [] + ActionMessages(c, d.target, texts) == ActionMessages(c, d.target, texts);
    var t := StageAfter(d.target);
    match d.target {
      case WorkIntroDelivery => assert ActionMessages(c, d.target, texts) == PackOnce(c, "work_intro");
      case SalaryScheduleDelivery => assert ActionMessages(c, d.target, texts) == PackOnce(c, "salary_schedule");
      case SupportSmalltalk => assert t == RoomAvailableCheck;
    }
  }

  lemma DirectIsSent(c: Conversation, input: TurnInput)
    requires TypeOf(Decide(c, input).target) != Action && !TurnedDown(c, input.semantic, input.reply)
    requires !Terminal(c.stage) && TypeOf(c.stage) == Waiting
    ensures var TurnInput(sem, reply, texts) := input;
            var r := Turn(c, input);
            var t := r.after.stage;
            var kept := if CompletedByFields(c, sem) then [] else reply.messages;
            && t == Decide(c, input).target
            && (t == DoNotContact || sem.messageType != AskedNotToContact)
            && r.emitted ==
               if sem.messageType == AskedNotToContact || !reply.sendReply then []
               else if t == c.stage then
                 if reply.messages == [] && sem.messageType != Empty then [TextMessage(texts.question(t))]
                 else reply.messages
               else if t == Lost then if reply.messages == [] then [TextMessage(texts.lost)] else kept
               else if t == HumanHandoff then
                 if reply.messages == [] then [TextMessage(texts.handoff)] else reply.messages
               else if TypeOf(t) != Waiting || Mentions(kept, texts.question(t)) then kept
               else kept + [TextMessage(texts.question(t))]
  {
    hide Mentions, Merge, RequirementMet, CombineTextAndQuestion, NextStage, Advance, MayLeave;
    assert input.reply.messages + [] == input.reply.messages;
  }

  // ---- Closed conversations, and what the next turn starts from ----

  // The final stage that a turn asks for, if it asks for one.
  function FinalAsked(c: Conversation, sem: Semantic, reply: Reply): Option<Stage> {
    if sem.messageType == AskedNotToContact then Some(DoNotContact)
    else if sem.messageType == HardRefusal then Some(Lost)
    else if reply.handoffRequired || c.handoffRequired then Some(HumanHandoff)
    else None
  }

  // A closed conversation stays where it is. A turn that asks for another final stage says nothing; any
  // other says what the reply says, and lost and human_handoff repeat their text if that is nothing.
  lemma ClosedConversationsStay(c: Conversation, input: TurnInput)
    requires Resting(c.stage) && Terminal(c.stage)
    ensures var TurnInput(sem, reply, texts) := input;
            var r := Turn(c, input);
            var asked := FinalAsked(c, sem, reply);
            && r.after.stage == c.stage && (c.voicePacks, c.templates) == (r.after.voicePacks, r.after.templates)
            && (asked.Some? && asked.value != c.stage ==>
                  r.emitted == [] && Decide(c, input).sendReply && Decide(c, input).outgoing == [])
            && (asked.None? || asked.value == c.stage ==>
                  && (Decide(c, input).sendReply <==> reply.sendReply && sem.messageType != AskedNotToContact)
                  && r.emitted ==
                     if !reply.sendReply || sem.messageType == AskedNotToContact then []
                     else if reply.messages != [] || c.stage == DoNotContact then reply.messages
                     else [TextMessage(if c.stage == Lost then texts.lost else texts.handoff)])
  {
    hide Mentions, Merge, RequirementMet, CombineTextAndQuestion, NextStage, Advance;
    assert input.reply.messages + [] == input.reply.messages;
  }

  // A handoff once required stays required; it is required from the turn on that asks for it or that
  // ends at human_handoff.
  lemma HandoffIsRemembered(c: Conversation, input: TurnInput)
    ensures var after := Turn(c, input).after;
            after.handoffRequired <==>
              c.handoffRequired || input.reply.handoffRequired || Decide(c, input).target == HumanHandoff
    ensures Resting(c.stage) ==>
              (Decide(c, input).target == HumanHandoff <==> Turn(c, input).after.stage == HumanHandoff)
  {
    hide Outgoing, TurnProfile, TargetOf;
  }

  // The next turn starts from all that the last one left, or, if that was superseded, from what was kept
  // before: only stage and handoff flag come from the superseded turn, and only with a checkpointer.
  lemma NextTurnStartsFrom(checkpointed: bool, evs: seq<Event>, e: Event)
    ensures var g := Run(checkpointed, evs);
            var after := Turn(Entry(g), e.input).after;
            var next := Entry(Run(checkpointed, evs + [e]));
            var kept := g.runtime.conversation;
            if !e.superseded then next == after
            else if !checkpointed then next == kept
            else next == kept.(stage := after.stage, handoffRequired := after.handoffRequired || kept.handoffRequired)
  {
    assert (evs + [e])[..|evs + [e]| - 1] == evs;
    RunIsSound(checkpointed, evs);
    hide Turn, Sound;
  }

  // Messages are sent in the order of the turns, all of a turn's at once, none of a superseded turn's.
  lemma {:induction false} OutboxInOrder(checkpointed: bool, evs: seq<Event>, e: Event)
    ensures Outbox(checkpointed, evs + [e]) ==
            Outbox(checkpointed, evs) +
            if e.superseded then [] else Turn(Entry(Run(checkpointed, evs)), e.input).emitted
  {
    assert (evs + [e])[..|evs + [e]| - 1] == evs;
    hide Turn;
  }

  // After a restart nothing is known: the conversation is at interest_check, no field is given, nothing
  // is recorded as sent and no handoff is required.
  lemma NothingIsKnownAtFirst(checkpointed: bool)
    ensures var c := Entry(Run(checkpointed, []));
            && c.stage == InterestCheck && (forall f :: !Given(c.profile, f))
            && c.profile.age.None? && c.profile.interviewDay.None? && c.profile.smalltalkDone.None?
            && c.voicePacks == [] && c.templates == [] && !c.handoffRequired
  {
  }

  // ---- Stages of an older funnel, and packs ----

  // A conversation kept at an action stage runs that action when nothing else is asked for.
  lemma ActionStagesAreRun(c: Conversation, input: TurnInput)
    requires TypeOf(c.stage) == Action && FinalAsked(c, input.semantic, input.reply).None?
    ensures var r := Turn(c, input);
            var texts := input.texts;
            if c.stage == CompanyIntro then
              && r.after.stage == ProfileThemeCheck && "company_intro_message" in r.after.templates
              && r.emitted == (if "company_intro_message" in c.templates then [] else [TextMessage(texts.template)]) +
                              [TextMessage(texts.question(ProfileThemeCheck))]
            else
              && r.after.stage == (match c.stage case WorkIntroDelivery => SalaryScheduleOffer
                                                 case SalaryScheduleDelivery => PostEquipmentQuestionsCheck
                                                 case _ => RoomAvailableCheck)
              && r.emitted == Delivered(c, r.after.stage, texts)
  {
    var d := Decide(c, input);
    assert d.target == c.stage && d.outgoing == [] && d.sendReply by {
      hide Mentions, Merge, RequirementMet;
    }
    hide Decide, CombineTextAndQuestion;
    if c.stage == CompanyIntro {
      assert [] + ActionMessages(c, c.stage, input.texts) == ActionMessages(c, c.stage, input.texts);
    } else {
      ExecutorDelivers(c, d, input.texts);
      hide ExecutorMessages, Delivered;
    }
  }

  // What was sent stays recorded, in order; a turn records at most one pack and one template, last.
  lemma RecordsGrow(c: Conversation, input: TurnInput)
    ensures var after := Turn(c, input).after;
            && c.voicePacks <= after.voicePacks && |after.voicePacks| <= |c.voicePacks| + 1
            && c.templates <= after.templates && |after.templates| <= |c.templates| + 1
  {
    hide Decide, ExecutorMessages;
  }

  // ---- The edges ----

  // An action stage leads to the stage after it and nowhere else, a final stage nowhere; every other
  // may stay, end, or go on to the next stage, interview_day_check also to interview_custom_time.
  lemma EdgesFollowTheOrder(s: Stage, t: Stage)
    ensures CanTransition(s, t) <==>
            match TypeOf(s)
            case Action => NextIfCompleted(s) == Some(t)
            case Final => t == s
            case Waiting => t in {s, Lost, DoNotContact, HumanHandoff} || NextIfCompleted(s) == Some(t) ||
                            (s == InterviewDayCheck && t == InterviewCustomTime)
    ensures TypeOf(s) == Action ==> NextIfCompleted(s) == Some(WaitingAfter(s))
  {
  }
}
