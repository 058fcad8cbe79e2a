// Which voice packs have been sent at which stage, over whole runs.
module FunnelVoicePacks {
  import opened Basics
  import opened FunnelPolicy
  import opened FunnelGraph
  import opened FunnelRuns

  // The packs of the action stages ranked below s.
  function PacksBelow(s: Stage): set<string> {
    (if Rank(WorkIntroDelivery) < Rank(s) then {"work_intro"} else {}) +
    (if Rank(SalaryScheduleDelivery) < Rank(s) then {"salary_schedule"} else {})
  }

  function PackOf(s: Stage): set<string> {
    if VoicePack(s).Some? then {VoicePack(s).value} else {}
  }

  function Elements(xs: seq<string>): set<string> {
    set x <- xs
  }

  // The advance loop never jumps over an action stage.
  lemma {:induction false} AdvanceStopsAtPacks(s: Stage, p: Profile)
    requires !Legacy(s) && !Terminal(Advance(s, p))
    ensures PacksBelow(Advance(s, p)) == PacksBelow(s)
    decreases TOP - Rank(s)
  {
    if TypeOf(s) == Waiting && RequirementMet(s, p) {
      NextClimbs(s, p);
      OneHop(s, p);
      HopKeepsPacks(s, p);
      hide RequirementMet, TypeOf, Legacy, NextStage, PacksBelow, Rank, Terminal;
      if Terminal(NextStage(s, p)) {
        AdvanceFromTerminal(NextStage(s, p), p);
      }
      AdvanceStopsAtPacks(NextStage(s, p), p);
    }
  }

  lemma AdvanceFromTerminal(s: Stage, p: Profile)
    requires Terminal(s)
    ensures Advance(s, p) == s
  {
  }

  lemma HopKeepsPacks(s: Stage, p: Profile)
    requires !Legacy(s) && TypeOf(s) == Waiting && RequirementMet(s, p) && !Terminal(NextStage(s, p))
    ensures PacksBelow(NextStage(s, p)) == PacksBelow(s)
  {
  }

  lemma ActionAddsItsPack(s: Stage)
    requires TypeOf(s) == Action && !Legacy(s)
    ensures PacksBelow(WaitingAfter(s)) == PacksBelow(s) + PackOf(s)
    ensures PackOf(s) !! PacksBelow(s)
  {
  }

  // A turn raises the stage over exactly the pack it sends.
  lemma TurnPacks(c: Conversation, input: TurnInput)
    requires Resting(c.stage) && !Terminal(Turn(c, input).after.stage)
    ensures var target := Decide(c, input).target;
            && PacksBelow(Turn(c, input).after.stage) == PacksBelow(c.stage) + PackOf(target)
            && PackOf(target) !! PacksBelow(c.stage)
  {
    var p := TurnProfile(c, input.semantic);
    var target := Decide(c, input).target;
    TargetKeepsPacks(c, input);
    TurnMoves(c, input);
    hide PacksBelow, RequirementMet, Merge, Chosen, TurnedDown, Outgoing;
    if TypeOf(target) == Action {
      ActionAddsItsPack(target);
    } else {
      assert PackOf(target) == {};
    }
  }

  lemma TargetKeepsPacks(c: Conversation, input: TurnInput)
    requires Resting(c.stage) && !Terminal(Turn(c, input).after.stage)
    ensures !Legacy(Decide(c, input).target) && PacksBelow(Decide(c, input).target) == PacksBelow(c.stage)
  {
    var p := TurnProfile(c, input.semantic);
    var target := Decide(c, input).target;
    if target != c.stage {
      assert MayLeave(c, input.semantic) && RequirementMet(c.stage, p) by {
        hide RequirementMet, Merge, NextStage;
      }
      var n := NextStage(c.stage, p);
      OneHop(c.stage, p);
      AdvanceClimbs(n, p);
      assert target == n || target == Advance(n, p) by {
        hide RequirementMet, Merge, NextStage, Advance, PacksBelow;
      }
      hide RequirementMet, Merge, NextStage, Advance, PacksBelow, Chosen, TurnedDown;
      if Terminal(n) {
        AdvanceFromTerminal(n, p);
      }
      assert !Terminal(target);
      HopKeepsPacks(c.stage, p);
      if target != n {
        AdvanceStopsAtPacks(n, p);
      }
    }
  }

  // ---- Whole runs ----

  predicate PacksExact(g: Gateway) {
    Elements(g.runtime.conversation.voicePacks) == PacksBelow(Entry(g).stage)
  }

  // The pack that is due at a turn, read off its input: the turn asks for no refusal and no handoff and
  // completes age_check (or interest_check and, with nothing left unanswered, age_check as well), or
  // completes salary_schedule_offer.
  function PackDue(c: Conversation, sem: Semantic, reply: Reply): set<string> {
    var p := TurnProfile(c, sem);
    if sem.messageType in {AskedNotToContact, HardRefusal} || HandoffAsked(c, reply) ||
       !MayLeave(c, sem) || !RequirementMet(c.stage, p)
    then {}
    else if c.stage == AgeCheck ||
            (c.stage == InterestCheck && !sem.hasUnresolvedInterrupt && RequirementMet(AgeCheck, p))
    then {"work_intro"}
    else if c.stage == SalaryScheduleOffer then {"salary_schedule"}
    else {}
  }

  // A turn either goes on from a completed stage or runs no pack.
  lemma TargetWithPack(c: Conversation, input: TurnInput)
    requires Resting(c.stage)
    ensures var TurnInput(sem, reply, _) := input;
            var p := TurnProfile(c, sem);
            var n := NextStage(c.stage, p);
            var t := Decide(c, input).target;
            if sem.messageType in {AskedNotToContact, HardRefusal} || HandoffAsked(c, reply) ||
               !MayLeave(c, sem) || !RequirementMet(c.stage, p)
            then PackOf(t) == {}
            else TypeOf(c.stage) == Waiting && t == if sem.hasUnresolvedInterrupt then n else Advance(n, p)
  {
    TurnedDownExactly(c, input.semantic, input.reply);
    hide Merge, Outgoing, RequirementMet, NextStage, Advance, Accepts;
  }

  // The pack of the stage that a completed waiting stage leads to, one hop or as far as it goes.
  lemma PackAfter(s: Stage, p: Profile)
    requires TypeOf(s) == Waiting && !Legacy(s) && RequirementMet(s, p)
    ensures PackOf(NextStage(s, p)) == OwnPack(s)
    ensures PackOf(Advance(NextStage(s, p), p)) ==
            if s == InterestCheck && RequirementMet(AgeCheck, p) then {"work_intro"} else OwnPack(s)
  {
    var n := NextStage(s, p);
    if s == InterestCheck {
      assert n == AgeCheck;
      assert RequirementMet(n, p) ==> NextStage(n, p) == WorkIntroDelivery;
    } else if s in {AgeCheck, SalaryScheduleOffer} {
      assert TypeOf(n) == Action;
    } else {
      NoPackAbove(n, p);
    }
    hide RequirementMet;
  }

  function OwnPack(s: Stage): set<string> {
    if s == AgeCheck then {"work_intro"} else if s == SalaryScheduleOffer then {"salary_schedule"} else {}
  }

  // Above the second pack there is none.
  lemma {:induction false} NoPackAbove(s: Stage, p: Profile)
    requires Rank(s) > Rank(SalaryScheduleDelivery)
    ensures PackOf(Advance(s, p)) == {}
    decreases TOP - Rank(s)
  {
    if TypeOf(s) == Waiting && RequirementMet(s, p) {
      NextClimbs(s, p);
      NoPackAbove(NextStage(s, p), p);
    }
  }

  // The pack due is the pack of the action stage the turn runs.
  lemma PackDueIsSent(c: Conversation, input: TurnInput)
    requires Resting(c.stage)
    ensures PackDue(c, input.semantic, input.reply) == PackOf(Decide(c, input).target)
  {
    var p := TurnProfile(c, input.semantic);
    TargetWithPack(c, input);
    hide Decide, MayLeave, HandoffAsked, RequirementMet, NextStage, Advance, PackOf, TypeOf, TurnProfile;
    if MayLeave(c, input.semantic) && TypeOf(c.stage) == Waiting && RequirementMet(c.stage, p) {
      PackAfter(c.stage, p);
    }
  }

  // A superseded turn at which a pack was due, on a checkpointed thread: the thread remembers the
  // stage behind the pack, the runtime forgets that the pack is still to be sent.
  predicate LosesPack(g: Gateway, checkpointed: bool, e: Event) {
    checkpointed && e.superseded && PackDue(Entry(g), e.input.semantic, e.input.reply) != {}
  }

  lemma ElementsGrow(c: Conversation, input: TurnInput)
    ensures Elements(Turn(c, input).after.voicePacks) ==
            Elements(c.voicePacks) + PackOf(Decide(c, input).target)
  {
    hide Outgoing, TurnedDown, Chosen, Merge, VoicePack;
  }

  lemma StepPacks(g: Gateway, checkpointed: bool, e: Event)
    requires Sound(g) && (!checkpointed ==> g.thread.None?)
    requires !Terminal(Entry(Step(g, checkpointed, e)).stage) && (e.superseded ==> checkpointed)
    ensures var g' := Step(g, checkpointed, e);
            var pack := PackDue(Entry(g), e.input.semantic, e.input.reply);
            var packs := Elements(g.runtime.conversation.voicePacks);
            && Elements(g'.runtime.conversation.voicePacks) == (if e.superseded then packs else packs + pack)
            && PacksBelow(Entry(g').stage) == PacksBelow(Entry(g).stage) + pack
            && pack !! PacksBelow(Entry(g).stage)
  {
    hide Turn, Decide, PacksBelow, PackOf, PackDue, Terminal, Resting, Height, StatusForStage, Elements;
    PackDueIsSent(Entry(g), e.input);
    ElementsGrow(Entry(g), e.input);
    TurnPacks(Entry(g), e.input);
  }

  predicate PacksWithin(g: Gateway) {
    Elements(g.runtime.conversation.voicePacks) <= PacksBelow(Entry(g).stage)
  }

  lemma StepExactIff(g: Gateway, checkpointed: bool, e: Event)
    requires Sound(g) && (!checkpointed ==> g.thread.None?)
    requires !Terminal(Entry(Step(g, checkpointed, e)).stage) && PacksWithin(g)
    ensures var g' := Step(g, checkpointed, e);
            PacksWithin(g') && (PacksExact(g') <==> PacksExact(g) && !LosesPack(g, checkpointed, e))
  {
    hide Decide, Turn, PacksBelow, PackDue, Elements, Terminal, Sound;
    if e.superseded && !checkpointed {
      assert Step(g, checkpointed, e).runtime == g.runtime;
    } else {
      StepPacks(g, checkpointed, e);
    }
  }

  ghost predicate NoPackLost(checkpointed: bool, evs: seq<Event>) {
    forall i :: 0 <= i < |evs| ==> !LosesPack(Run(checkpointed, evs[..i]), checkpointed, evs[i])
  }

  lemma NoPackLostSnoc(checkpointed: bool, evs: seq<Event>)
    requires evs != []
    ensures var n := |evs| - 1;
            NoPackLost(checkpointed, evs) <==>
            NoPackLost(checkpointed, evs[..n]) && !LosesPack(Run(checkpointed, evs[..n]), checkpointed, evs[n])
  {
    hide LosesPack, Run;
    var n := |evs| - 1;
    forall i | 0 <= i < n ensures evs[..n][..i] == evs[..i] {
      PrefixOfPrefix(evs, i, n);
    }
  }

  // sent_voice_packs is exactly the packs below the current stage if and only if no turn of the
  // run was such a superseded one; once a pack is lost it stays lost while the conversation is open.
  lemma {:induction false} PacksExactIff(checkpointed: bool, evs: seq<Event>)
    requires !Terminal(StageOf(checkpointed, evs))
    ensures PacksExact(Run(checkpointed, evs)) <==> NoPackLost(checkpointed, evs)
    ensures PacksWithin(Run(checkpointed, evs))
  {
    if evs != [] {
      var n := |evs| - 1;
      StageOnlyClimbs(checkpointed, evs, n);
      hide PacksExact, PacksWithin, LosesPack, Terminal, Sound, NoPackLost, Height, Resting, Step;
      PacksExactIff(checkpointed, evs[..n]);
      RunIsSound(checkpointed, evs[..n]);
      StepExactIff(Run(checkpointed, evs[..n]), checkpointed, evs[n]);
      NoPackLostSnoc(checkpointed, evs);
    }
  }

  // How often pack p is among the messages.
  function CountPack(ms: seq<Message>, p: string): nat {
    if ms == [] then 0
    else CountPack(ms[..|ms| - 1], p) +
         if ms[|ms| - 1].kind == VoicePackKind && ms[|ms| - 1].voicePackId == Some(p) then 1 else 0
  }

  lemma {:induction false} CountAppend(a: seq<Message>, b: seq<Message>, p: string)
    ensures CountPack(a + b, p) == CountPack(a, p) + CountPack(b, p)
  {
    if b == [] {
      assert a + b == a;
    } else {
      CountAppend(a, b[..|b| - 1], p);
      assert (a + b)[..|a + b| - 1] == a + b[..|b| - 1];
    }
  }

  // The reply's own messages, as far as the controller passes them on: not when replies are off, the
  // candidate asked not to be contacted, the target is refused or an action stage, nor when the
  // stage was completed by fields and left for anything but a handoff.
  function Carried(c: Conversation, input: TurnInput): seq<Message> {
    var TurnInput(sem, reply, _) := input;
    var target := TargetOf(c, sem, reply);
    if !reply.sendReply || sem.messageType == AskedNotToContact ||
       TurnedDown(c, sem, reply) || TypeOf(target) == Action ||
       (target != c.stage && target != HumanHandoff && CompletedByFields(c, sem))
    then []
    else reply.messages
  }

  // The controller adds texts to what the reply carries, never a pack.
  lemma ControllerAddsNoPack(c: Conversation, input: TurnInput, p: string)
    ensures var d := Decide(c, input);
            (if d.sendReply then CountPack(d.outgoing, p) else 0) == CountPack(Carried(c, input), p)
  {
    var q := input.texts.question(TargetOf(c, input.semantic, input.reply));
    CountSingle(TextMessage(q), p);
    CountSingle(TextMessage(input.texts.question(c.stage)), p);
    CountSingle(TextMessage(input.texts.lost), p);
    CountSingle(TextMessage(input.texts.handoff), p);
    CountAppend(input.reply.messages, [TextMessage(q)], p);
    CountAppend(input.reply.messages, [TextMessage(input.texts.question(c.stage))], p);
    NoMessages(input.reply.messages, TextMessage(q));
    assert CountPack([], p) == 0;
    hide CountPack, Chosen, Merge, Mentions, RequirementMet, TurnedDown;
  }

  lemma NoMessages(ms: seq<Message>, m: Message)
    ensures ms + [] == ms && [] + [m] == [m]
  {
  }

  // Packs that the replies of kept turns carried themselves.
  function RepliedPacks(checkpointed: bool, evs: seq<Event>, p: string): nat {
    if evs == [] then 0
    else
      var before, e := evs[..|evs| - 1], evs[|evs| - 1];
      RepliedPacks(checkpointed, before, p) +
      if e.superseded then 0 else CountPack(Carried(Entry(Run(checkpointed, before)), e.input), p)
  }

  // Replies without pack messages carry none.
  lemma {:induction false} PlainReplies(checkpointed: bool, evs: seq<Event>, p: string)
    requires forall i :: 0 <= i < |evs| ==> CountPack(evs[i].input.reply.messages, p) == 0
    ensures RepliedPacks(checkpointed, evs, p) == 0
  {
    if evs != [] {
      hide Run, Entry, TargetOf, TurnedDown, CompletedByFields;
      PlainReplies(checkpointed, evs[..|evs| - 1], p);
    }
  }

  lemma TurnSendsPack(c: Conversation, input: TurnInput, p: string)
    ensures var r := Turn(c, input);
            CountPack(r.emitted, p) + (if p in c.voicePacks then 1 else 0) ==
            CountPack(Carried(c, input), p) + (if p in r.after.voicePacks then 1 else 0)
  {
    var d := Decide(c, input);
    ControllerAddsNoPack(c, input, p);
    assert CountPack([], p) == 0;
    hide Outgoing, TurnedDown, Chosen, Merge, CombineTextAndQuestion, Carried, CountPack;
    if TypeOf(d.target) == Action {
      assert d.sendReply;
      ExecutorSendsPack(c, d, input.texts, p);
    }
  }

  lemma ExecutorSendsPack(c: Conversation, d: Decision, texts: Texts, p: string)
    requires TypeOf(d.target) == Action
    ensures CountPack(ExecutorMessages(c, d, texts), p) ==
            CountPack(d.outgoing, p) + if VoicePack(d.target) == Some(p) && p !in c.voicePacks then 1 else 0
  {
    hide CombineTextAndQuestion;
    var q := texts.question(WaitingAfter(d.target));
    hide CountPack, ActionMessages;
    if d.target == SupportSmalltalk {
      var last := TextMessage(CombineTextAndQuestion(texts.smalltalk, q));
      CountSingle(last, p);
      CountAppend(d.outgoing, [last], p);
    } else {
      var own := ActionMessages(c, d.target, texts);
      CountOwn(c, d.target, texts, p);
      CountSingle(TextMessage(q), p);
      CountAppend(d.outgoing, own, p);
      CountAppend(d.outgoing + own, [TextMessage(q)], p);
    }
  }

  lemma CountSingle(m: Message, p: string)
    ensures CountPack([m], p) == if m.kind == VoicePackKind && m.voicePackId == Some(p) then 1 else 0
  {
    assert [m][..0] == [];
  }

  lemma CountOwn(c: Conversation, stage: Stage, texts: Texts, p: string)
    requires TypeOf(stage) == Action && stage != SupportSmalltalk
    ensures CountPack(ActionMessages(c, stage, texts), p) ==
            if VoicePack(stage) == Some(p) && p !in c.voicePacks then 1 else 0
  {
    CountSingle(Message(VoicePackKind, None, VoicePack(stage), None), p);
    CountSingle(TextMessage(texts.template), p);
  }

  // Conservation of packs: what was sent is one of each recorded pack plus what replies carried.
  lemma {:induction false} PacksSent(checkpointed: bool, evs: seq<Event>, p: string)
    ensures CountPack(Outbox(checkpointed, evs), p) ==
            RepliedPacks(checkpointed, evs, p) +
            if p in Run(checkpointed, evs).runtime.conversation.voicePacks then 1 else 0
  {
    if evs != [] {
      var before, e := evs[..|evs| - 1], evs[|evs| - 1];
      var g := Run(checkpointed, before);
      PacksSent(checkpointed, before, p);
      CountAppend(Outbox(checkpointed, before), Sent(g, e), p);
      hide Turn, Decide;
      TurnSendsPack(Entry(g), e.input, p);
    }
  }

  // A superseded turn on a checkpointed thread lost this pack.
  ghost predicate PackLost(checkpointed: bool, evs: seq<Event>, p: string) {
    exists i :: 0 <= i < |evs| && LosesThis(checkpointed, evs, p, i)
  }

  predicate LosesThis(checkpointed: bool, evs: seq<Event>, p: string, i: nat)
    requires i < |evs|
  {
    && checkpointed && evs[i].superseded
    && p in PackDue(Entry(Run(checkpointed, evs[..i])), evs[i].input.semantic, evs[i].input.reply)
  }

  lemma LostSnoc(checkpointed: bool, evs: seq<Event>, p: string)
    requires evs != []
    ensures var n := |evs| - 1;
            PackLost(checkpointed, evs, p) <==>
            PackLost(checkpointed, evs[..n], p) || LosesThis(checkpointed, evs, p, n)
  {
    hide Run, PackDue, Entry;
    var n := |evs| - 1;
    forall i | 0 <= i < n ensures LosesThis(checkpointed, evs[..n], p, i) <==> LosesThis(checkpointed, evs, p, i) {
      PrefixOfPrefix(evs, i, n);
      assert evs[..n][i] == evs[i];
    }
    if PackLost(checkpointed, evs[..n], p) {
      var i :| 0 <= i < n && LosesThis(checkpointed, evs[..n], p, i);
      assert LosesThis(checkpointed, evs, p, i);
    }
    if PackLost(checkpointed, evs, p) && !LosesThis(checkpointed, evs, p, n) {
      var i :| 0 <= i < |evs| && LosesThis(checkpointed, evs, p, i);
      assert LosesThis(checkpointed, evs[..n], p, i);
    }
  }

  // In an open conversation a pack is missing from the record exactly if it was lost.
  lemma {:induction false} RecordedUnlessLost(checkpointed: bool, evs: seq<Event>, p: string)
    requires !Terminal(StageOf(checkpointed, evs))
    ensures p in Run(checkpointed, evs).runtime.conversation.voicePacks <==>
            p in PacksBelow(StageOf(checkpointed, evs)) && !PackLost(checkpointed, evs, p)
    ensures PackLost(checkpointed, evs, p) ==> p in PacksBelow(StageOf(checkpointed, evs))
  {
    if evs != [] {
      var n := |evs| - 1;
      var g, e := Run(checkpointed, evs[..n]), evs[n];
      StageOnlyClimbs(checkpointed, evs, n);
      LostSnoc(checkpointed, evs, p);
      RunIsSound(checkpointed, evs[..n]);
      hide PackLost, Terminal, Sound, Height, Resting, Step, PacksBelow, PackDue, Turn;
      RecordedUnlessLost(checkpointed, evs[..n], p);
      StepRecords(g, checkpointed, e, p);
    }
  }

  // How one turn changes whether pack p is recorded and whether it lies below the stage.
  lemma StepRecords(g: Gateway, checkpointed: bool, e: Event, p: string)
    requires Sound(g) && (!checkpointed ==> g.thread.None?) && !Terminal(Entry(Step(g, checkpointed, e)).stage)
    ensures var g' := Step(g, checkpointed, e);
            var sent := p in PackDue(Entry(g), e.input.semantic, e.input.reply);
            if e.superseded && !checkpointed then g' == g
            else
              && (sent ==> p !in PacksBelow(Entry(g).stage))
              && (p in PacksBelow(Entry(g').stage) <==> p in PacksBelow(Entry(g).stage) || sent)
              && (p in g'.runtime.conversation.voicePacks <==>
                    p in g.runtime.conversation.voicePacks || (sent && !e.superseded))
  {
    hide Turn, Decide, PacksBelow, PackDue, Terminal, Sound;
    if !(e.superseded && !checkpointed) {
      StepPacks(g, checkpointed, e);
      InElements(g.runtime.conversation.voicePacks, p);
      InElements(Step(g, checkpointed, e).runtime.conversation.voicePacks, p);
    }
  }

  lemma InElements(xs: seq<string>, p: string)
    ensures p in Elements(xs) <==> p in xs
  {
  }

  // In an open conversation each pack below the current stage has been sent exactly once and no
  // other pack at all, if and only if the replies carried no pack, or one for each that was lost.
  lemma EachPackSentOnceIff(checkpointed: bool, evs: seq<Event>, p: string)
    requires !Terminal(StageOf(checkpointed, evs))
    ensures CountPack(Outbox(checkpointed, evs), p) ==
            (if p in PacksBelow(StageOf(checkpointed, evs)) then 1 else 0) <==>
            RepliedPacks(checkpointed, evs, p) == (if PackLost(checkpointed, evs, p) then 1 else 0)
  {
    RecordedUnlessLost(checkpointed, evs, p);
    PacksSent(checkpointed, evs, p);
    hide PacksBelow, Run, RepliedPacks, Outbox, PackLost, StageOf;
  }

  // With no pack lost to a superseded turn, each pack below the current stage has been sent once and
  // no other pack at all, apart from those in replies; so exactly once if no reply had one.
  lemma EachPackSentOnce(checkpointed: bool, evs: seq<Event>, p: string)
    requires !Terminal(StageOf(checkpointed, evs)) && NoPackLost(checkpointed, evs)
    ensures var once := if p in PacksBelow(StageOf(checkpointed, evs)) then 1 else 0;
            && CountPack(Outbox(checkpointed, evs), p) == RepliedPacks(checkpointed, evs, p) + once
            && ((forall i :: 0 <= i < |evs| ==> CountPack(evs[i].input.reply.messages, p) == 0) ==>
                  CountPack(Outbox(checkpointed, evs), p) == once)
  {
    if forall i :: 0 <= i < |evs| ==> CountPack(evs[i].input.reply.messages, p) == 0 {
      PlainReplies(checkpointed, evs, p);
    }
    hide CountPack, Run, Outbox, RepliedPacks, Terminal, PacksBelow, StageOf;
    assert !PackLost(checkpointed, evs, p);
    RecordedUnlessLost(checkpointed, evs, p);
    PacksSent(checkpointed, evs, p);
  }

  // With the checkpointer on, one superseded turn is enough to lose the first pack for good.
  lemma SupersededTurnLosesPack(texts: Texts)
    ensures var facts := EMPTY_PROFILE.(interestConfirmed := Some(true), ageConfirmed := Some(true), age := Some(20));
            var e := Inbound(TurnInput(Semantic(StageAnswer, true, false, facts), Reply(true, false, []), texts), true);
            var g := Run(true, [e]);
            Entry(g).stage == SalaryScheduleOffer && !PacksExact(g) && Outbox(true, [e]) == []
  {
    var facts := EMPTY_PROFILE.(interestConfirmed := Some(true), ageConfirmed := Some(true), age := Some(20));
    var sem := Semantic(StageAnswer, true, false, facts);
    var e := Inbound(TurnInput(sem, Reply(true, false, []), texts), true);
    RunOfOne(true, e);
    var c := Entry(FRESH);
    var p := TurnProfile(c, sem);
    assert RequirementMet(InterestCheck, p) && RequirementMet(AgeCheck, p);
    assert Advance(AgeCheck, p) == Advance(WorkIntroDelivery, p) == WorkIntroDelivery;
    assert Chosen(c, sem, e.input.reply) == WorkIntroDelivery;
    hide Outgoing, Chosen, Advance, RequirementMet, Merge, NextStage, VoicePack;
    assert Decide(c, e.input).target == WorkIntroDelivery;
    ActionAddsItsPack(WorkIntroDelivery);
    assert PackOf(WorkIntroDelivery) != {} by {
      PackOfWorkIntro();
    }
  }

  lemma PackOfWorkIntro()
    ensures PackOf(WorkIntroDelivery) == {"work_intro"}
  {
  }

  lemma RunOfOne(checkpointed: bool, e: Event)
    ensures Run(checkpointed, [e]) == Step(FRESH, checkpointed, e)
    ensures Outbox(checkpointed, [e]) == Sent(FRESH, e)
  {
    assert [e][..0] == [];
    hide Sent, Step;
  }

  // A reply that carries a pack message itself sends it outside the funnel's bookkeeping.
  lemma ReplyCanSendPack(texts: Texts, p: string)
    ensures var pack := Message(VoicePackKind, None, Some(p), None);
            var sem := Semantic(Unclear, false, true, EMPTY_PROFILE);
            var e := Inbound(TurnInput(sem, Reply(true, false, [pack]), texts), false);
            && StageOf(false, [e]) == InterestCheck && PacksBelow(InterestCheck) == {}
            && CountPack(Outbox(false, [e]), p) == 1
  {
    var pack := Message(VoicePackKind, None, Some(p), None);
    var sem := Semantic(Unclear, false, true, EMPTY_PROFILE);
    var e := Inbound(TurnInput(sem, Reply(true, false, [pack]), texts), false);
    RunOfOne(false, e);
    CountSingle(pack, p);
    hide RequirementMet, Merge, NextStage, Advance, CountPack, CombineTextAndQuestion, ActionMessages, Mentions;
    assert Decide(Entry(FRESH), e.input).target == InterestCheck;
    assert Sent(FRESH, e) == [pack];
  }
}
