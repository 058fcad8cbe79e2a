// What the queued actions of a reply are, stated on the reply's messages, packs and recordings.
module ReplyParts {
  import opened Basics
  import opened FunnelPolicy
  import opened FunnelGraph
  import opened ReplyGroup

  // ---- The parts ----

  // Messages are turned into parts one by one, in order.
  lemma {:induction false} PartsInOrder(packs: map<string, RawPack>, a: seq<Message>, b: seq<Message>)
    ensures Parts(packs, a + b) == Parts(packs, a) + Parts(packs, b)
  {
    hide PartsOfMessage;
    if b == [] {
      assert a + b == a;
    } else {
      var all, n := a + b, |b| - 1;
      assert all[..|all|] == all && b[..|b|] == b && all[..|all| - 1] == a + b[..n];
      PartsSnoc(packs, all, |all| - 1);
      PartsSnoc(packs, b, n);
      hide Parts;
      PartsInOrder(packs, a, b[..n]);
    }
  }

  lemma {:induction false} VoicePartAt(items: seq<VoiceItem>, i: nat)
    requires i < |items|
    ensures |VoiceParts(items)| == |items| && VoiceParts(items)[i] == VoicePart(items[i])
  {
    VoicePartsLength(items);
    VoicePartsLength(items[..|items| - 1]);
    if i < |items| - 1 {
      VoicePartAt(items[..|items| - 1], i);
    }
  }

  // A text that is not empty becomes one part and keeps its delay; a message of another kind, or
  // without text, becomes none.
  lemma TextBecomesOnePart(packs: map<string, RawPack>, m: Message)
    requires m.kind != VoicePackKind
    ensures Parts(packs, [m]) ==
            if m.kind == TextKind && m.text.Some? && m.text.value != ""
            then [TextPart(m.text.value, m.delaySeconds)] else []
  {
    assert [m][..0] == [];
  }

  // How an entry of a voice pack is sent: a bare name under its own caption; anything else as it
  // stands, except that a file without a recording time counts as 40 seconds.
  predicate SentAs(raw: RawItem, item: VoiceItem) {
    match raw
    case Named(name) => item == VoiceItem(Some(name), Some("[voice] " + name), None, None, None)
    case Details(given) =>
      && item.id == given.id && item.caption == given.caption && item.mediaPath == given.mediaPath
      && item.delaySeconds == given.delaySeconds
      && item.recording ==
         if given.recording.None? && given.mediaPath.Some? && given.mediaPath.value != "" then Some(Some(40.0))
         else given.recording
  }

  lemma PartsOfPack(packs: map<string, RawPack>, m: Message)
    requires m.kind == VoicePackKind
    ensures Parts(packs, [m]) == VoiceParts(PackItems(packs, PackId(m)))
  {
    hide VoiceParts, PackItems;
    assert [m][..0] == [];
  }

  // A voice pack becomes one part for each of its entries, in order; a pack that is unknown, empty or
  // not a list becomes a single part that names it.
  lemma PackBecomesItsEntries(packs: map<string, RawPack>, m: Message)
    requires m.kind == VoicePackKind
    ensures var id := if m.voicePackId.Some? then m.voicePackId.value else "";
            var parts := Parts(packs, [m]);
            if id in packs && packs[id].Items? && packs[id].items != [] then
              && |parts| == |packs[id].items|
              && forall i :: 0 <= i < |parts| ==> parts[i].VoicePart? && SentAs(packs[id].items[i], parts[i].item)
            else
              parts == [VoicePart(VoiceItem(Some(id), Some("[voice_pack: " + id + "]"), None, None, None))]
  {
    var items := PackItems(packs, PackId(m));
    PartsOfPack(packs, m);
    PartsOfItems(items);
    if PackId(m) in packs && packs[PackId(m)].Items? {
      ItemsAreSentAs(packs[PackId(m)].items);
    }
    hide Parts, VoiceParts, SentAs, ItemsOf;
    assert |items| == 1 ==> VoiceParts(items) == [VoicePart(items[0])];
  }

  lemma PartsOfItems(items: seq<VoiceItem>)
    ensures |VoiceParts(items)| == |items|
    ensures forall i :: 0 <= i < |items| ==> VoiceParts(items)[i] == VoicePart(items[i])
  {
    VoicePartsLength(items);
    forall i | 0 <= i < |items| ensures VoiceParts(items)[i] == VoicePart(items[i]) {
      VoicePartAt(items, i);
    }
  }

  lemma ItemsAreSentAs(raws: seq<RawItem>)
    ensures |ItemsOf(raws)| == |raws| && forall i :: 0 <= i < |raws| ==> SentAs(raws[i], ItemsOf(raws)[i])
  {
  }

  // ---- Delays ----

  // A recording time counts in whole seconds, cut off toward zero.
  lemma WholeSeconds(item: VoiceItem)
    ensures var n := RecordingSeconds(item);
            if item.recording.Some? && item.recording.value.Some? then
              var x := item.recording.value.value;
              if x >= 0.0 then n as real <= x < (n + 1) as real else (n - 1) as real < x <= n as real
            else n == 0
  {
  }

  // When the recording of part i is over, counted like the delays.
  function OverAt(parts: seq<Part>, size: nat, i: nat): int
    requires i < |parts| && Actions(parts, size)[i].Send? && parts[i].VoicePart?
  {
    Actions(parts, size)[i].delaySeconds + RecordingSeconds(parts[i].item)
  }

  // A part that says its own delay waits exactly that long.
  lemma OwnDelayIsUsed(parts: seq<Part>, size: nat, k: nat)
    requires k < |parts| && parts[k].OwnDelay().Some?
    ensures Actions(parts, size)[k].Send? && Actions(parts, size)[k].delaySeconds == parts[k].OwnDelay().value
  {
    NumberedInOrder(parts, size, k);
  }

  // Any other part waits for the recording before it that is over last, and for none if there is none.
  lemma WaitsForTheLastRecording(parts: seq<Part>, size: nat, k: nat)
    requires k < |parts| && parts[k].OwnDelay().None?
    ensures forall i :: 0 <= i < |parts| ==> Actions(parts, size)[i].Send?
    ensures LastOver(parts, size, k, Actions(parts, size)[k].delaySeconds)
  {
    forall i | 0 <= i < |parts|
      ensures Actions(parts, size)[i].Send?
      ensures Actions(parts, size)[i].delaySeconds == Delay(parts[i], Elapsed(parts[..i]))
    {
      NumberedInOrder(parts, size, i);
    }
    ElapsedIsLatest(parts, size, k);
    hide Actions, Elapsed;
  }

  // d is when the last of the first k recordings is over, or 0.
  ghost predicate LastOver(parts: seq<Part>, size: nat, k: nat, d: int)
    requires k <= |parts| && forall i :: 0 <= i < |parts| ==> Actions(parts, size)[i].Send?
  {
    && d >= 0 && (forall i :: 0 <= i < k && parts[i].VoicePart? ==> OverAt(parts, size, i) <= d)
    && (d > 0 ==> exists i :: 0 <= i < k && parts[i].VoicePart? && OverAt(parts, size, i) == d)
  }

  lemma {:induction false} ElapsedIsLatest(parts: seq<Part>, size: nat, k: nat)
    requires k <= |parts|
    requires forall i :: 0 <= i < |parts| ==> Actions(parts, size)[i].Send?
    requires forall i :: 0 <= i < |parts| ==>
               Actions(parts, size)[i].delaySeconds == Delay(parts[i], Elapsed(parts[..i]))
    ensures LastOver(parts, size, k, Elapsed(parts[..k]))
  {
    if k > 0 {
      hide LastOver, RecordingSeconds, Actions;
      ElapsedIsLatest(parts, size, k - 1);
      assert parts[..k][..k - 1] == parts[..k - 1];
      assert Elapsed(parts[..k]) == ElapsedAfter(Elapsed(parts[..k - 1]), parts[k - 1]);
      hide Elapsed;
      OneMoreRecording(parts, size, k - 1, Elapsed(parts[..k - 1]));
    } else {
      hide Actions;
    }
  }

  lemma OneMoreRecording(parts: seq<Part>, size: nat, k: nat, d: int)
    requires k < |parts| && forall i :: 0 <= i < |parts| ==> Actions(parts, size)[i].Send?
    requires LastOver(parts, size, k, d) && Actions(parts, size)[k].delaySeconds == Delay(parts[k], d)
    ensures LastOver(parts, size, k + 1, ElapsedAfter(d, parts[k]))
  {
    hide RecordingSeconds, Actions, Delay;
    var over := if parts[k].VoicePart? then OverAt(parts, size, k) else 0;
    assert ElapsedAfter(d, parts[k]) == if parts[k].VoicePart? && over > d then over else d;
    hide OverAt;
  }

  // ---- What follows the parts ----

  // First come the parts, only if a reply is sent. A lead is closed as lost exactly at lost, handed over
  // exactly if a reply is sent at human_handoff, and marked exactly if none is sent at do_not_contact;
  // a follow-up question comes last, with a reply only. Nothing is done twice.
  lemma WhatFollowsTheParts(sendReply: bool, stage: Stage, packs: map<string, RawPack>, ms: seq<Message>,
                            followUp: Option<string>)
    ensures var acts := PendingActions(sendReply, stage, packs, ms, followUp);
            var n := if sendReply then |Parts(packs, ms)| else 0;
            && (forall i :: 0 <= i < |acts| ==> (acts[i].Send? <==> i < n))
            && n <= |acts| && (forall i :: 0 <= i < n ==> acts[i].part == Parts(packs, ms)[i])
            && (CloseLost in acts <==> stage == Lost)
            && (HandOver in acts <==> sendReply && stage == HumanHandoff)
            && (MarkDoNotContact in acts <==> !sendReply && stage == DoNotContact)
            && (forall q :: FollowUp(q) in acts <==> sendReply && followUp == Some(q))
            && (sendReply && followUp.Some? ==> |acts| > 0 && acts[|acts| - 1] == FollowUp(followUp.value))
            && |acts| == n + One(stage == Lost) + One(sendReply && stage == HumanHandoff) +
                         One(!sendReply && stage == DoNotContact) + One(sendReply && followUp.Some?)
  {
    hide Actions, Parts, Closing;
    var parts := Parts(packs, ms);
    if sendReply {
      SendsFirst(parts);
      AfterTheSends(Actions(parts, |parts|), stage, followUp);
    } else {
      var acts := PendingActions(sendReply, stage, packs, ms, followUp);
      assert stage == Lost ==> acts == [CloseLost] && acts[0] == CloseLost;
      assert stage == DoNotContact ==> acts == [MarkDoNotContact] && acts[0] == MarkDoNotContact;
    }
  }

  function One(b: bool): nat {
    if b then 1 else 0
  }

  lemma SendsFirst(parts: seq<Part>)
    ensures forall i :: 0 <= i < |parts| ==>
              Actions(parts, |parts|)[i].Send? && Actions(parts, |parts|)[i].part == parts[i]
  {
    forall i | 0 <= i < |parts|
      ensures Actions(parts, |parts|)[i].Send? && Actions(parts, |parts|)[i].part == parts[i]
    {
      NumberedInOrder(parts, |parts|, i);
    }
  }

  // Exactly what the closing actions are, after n sends.
  ghost predicate Closes(acts: seq<Act>, n: nat, stage: Stage, followUp: Option<string>) {
    && n <= |acts| && (forall i :: 0 <= i < |acts| ==> (acts[i].Send? <==> i < n))
    && (CloseLost in acts <==> stage == Lost) && (HandOver in acts <==> stage == HumanHandoff)
    && MarkDoNotContact !in acts && (forall q :: FollowUp(q) in acts <==> followUp == Some(q))
    && (followUp.Some? ==> |acts| > 0 && acts[|acts| - 1] == FollowUp(followUp.value))
    && |acts| == n + One(stage == Lost) + One(stage == HumanHandoff) + One(followUp.Some?)
  }

  lemma ClosingCloses(stage: Stage, followUp: Option<string>)
    ensures Closes(Closing(stage, followUp), 0, stage, followUp)
  {
    var closing := Closing(stage, followUp);
    assert stage == Lost ==> closing[0] == CloseLost;
    assert stage == HumanHandoff ==> closing[0] == HandOver;
    assert followUp.Some? ==> closing[|closing| - 1] == FollowUp(followUp.value);
  }

  lemma AfterTheSends(sends: seq<Act>, stage: Stage, followUp: Option<string>)
    requires forall i :: 0 <= i < |sends| ==> sends[i].Send?
    ensures Closes(sends + Closing(stage, followUp), |sends|, stage, followUp)
  {
    ClosingCloses(stage, followUp);
    hide Closing;
    var closing, n := Closing(stage, followUp), |sends|;
    assert forall a <- closing :: !a.Send?;
    assert forall a <- sends :: a.Send?;
    forall i | n <= i < |sends + closing| ensures !(sends + closing)[i].Send? {
      assert (sends + closing)[i] in closing;
    }
  }
}
