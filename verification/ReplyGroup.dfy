// Scheduling one reply: numbering and delays of the actions of a reply group
// (app/services/funnel_graph/graph.py, lines 617-712).
module ReplyGroup {
  import opened Basics
  import opened FunnelPolicy
  import opened FunnelGraph

  // One entry of a voice pack. `recording` tells an absent key (None) from an explicit null (Some(None)).
  datatype VoiceItem = VoiceItem(
    id: Option<string>,
    caption: Option<string>,
    mediaPath: Option<string>,
    recording: Option<Option<real>>,
    delaySeconds: Option<int>)

  datatype RawItem = Details(item: VoiceItem) | Named(name: string)

  datatype RawPack = Items(items: seq<RawItem>) | NotAList

  datatype Act =
    | Send(part: Part, delaySeconds: int, groupIndex: nat, groupSize: nat) // send_voice or send_text
    | CloseLost
    | MarkDoNotContact
    | HandOver
    | FollowUp(text: string)

  // What becomes one action of the group.
  datatype Part = VoicePart(item: VoiceItem) | TextPart(text: string, delay: Option<int>) {
    function OwnDelay(): Option<int> {
      if VoicePart? then item.delaySeconds else delay
    }
  }

  function BareItem(id: string, caption: string): VoiceItem {
    VoiceItem(Some(id), Some(caption), None, None, None)
  }

  // What stands for an unknown or empty pack.
  function PackItself(id: string): VoiceItem {
    BareItem(id, "[voice_pack: " + id + "]")
  }

  function ItemOf(raw: RawItem): VoiceItem {
    match raw
    case Named(name) => BareItem(name, "[voice] " + name)
    case Details(item) =>
      if Truthy(item.mediaPath) && item.recording.None? then item.(recording := Some(Some(40.0))) else item
  }

  function ItemsOf(raws: seq<RawItem>): seq<VoiceItem> {
    seq(|raws|, i requires 0 <= i < |raws| => ItemOf(raws[i]))
  }

  // voice_pack_action_items: never empty, an unknown or empty pack stands for one item.
  function PackItems(packs: map<string, RawPack>, id: string): (items: seq<VoiceItem>)
    ensures items != []
  {
    if id in packs && packs[id].Items? && packs[id].items != [] then ItemsOf(packs[id].items) else [PackItself(id)]
  }

  method VoicePackActionItems(packs: map<string, RawPack>, id: string) returns (items: seq<VoiceItem>)
    ensures items == PackItems(packs, id)
  {
    var raw := if id in packs then packs[id] else Items([]);
    items := [];
    if raw.Items? {
      for i := 0 to |raw.items|
        invariant items == ItemsOf(raw.items[..i])
      {
        assert raw.items[..i + 1] == raw.items[..i] + [raw.items[i]];
        items := items + [ItemOf(raw.items[i])];
      }
      assert raw.items[..|raw.items|] == raw.items;
    }
    if items != [] {
      return;
    }
    items := [PackItself(id)];
  }

  function VoiceParts(items: seq<VoiceItem>): seq<Part> {
    if items == [] then [] else VoiceParts(items[..|items| - 1]) + [VoicePart(items[|items| - 1])]
  }

  function PackId(m: Message): string {
    if m.voicePackId.Some? then m.voicePackId.value else ""
  }

  function PartsOfMessage(packs: map<string, RawPack>, m: Message): seq<Part> {
    if m.kind == VoicePackKind then VoiceParts(PackItems(packs, PackId(m)))
    else if m.kind == TextKind && Truthy(m.text) then [TextPart(m.text.value, m.delaySeconds)]
    else []
  }

  function Parts(packs: map<string, RawPack>, ms: seq<Message>): seq<Part> {
    if ms == [] then []
    else Parts(packs, ms[..|ms| - 1]) + PartsOfMessage(packs, ms[|ms| - 1])
  }

  // int(float(x or 0)) truncates toward zero.
  function Truncate(r: real): int {
    if r >= 0.0 then r.Floor else -((-r).Floor)
  }

  function RecordingSeconds(item: VoiceItem): int {
    if item.recording.Some? && item.recording.value.Some? then Truncate(item.recording.value.value) else 0
  }

  function Max(a: int, b: int): int {
    if a < b then b else a
  }

  // A part waits as long as it says itself, or else as long as the group has run so far.
  function Delay(part: Part, soFar: int): int {
    if part.OwnDelay().Some? then part.OwnDelay().value else soFar
  }

  // How long the group has run after the given parts.
  function Elapsed(parts: seq<Part>): int {
    if parts == [] then 0 else ElapsedAfter(Elapsed(parts[..|parts| - 1]), parts[|parts| - 1])
  }

  function ElapsedAfter(soFar: int, part: Part): int {
    match part
    case TextPart(_, _) => soFar
    case VoicePart(item) => Max(soFar, Delay(part, soFar) + RecordingSeconds(item))
  }

  function Action(before: seq<Part>, part: Part, size: nat): Act {
    Send(part, Delay(part, Elapsed(before)), |before| + 1, size)
  }

  function Actions(parts: seq<Part>, size: nat): (acts: seq<Act>)
    ensures |acts| == |parts|
  {
    if parts == [] then []
    else
      var before, last := parts[..|parts| - 1], parts[|parts| - 1];
      Actions(before, size) + [Action(before, last, size)]
  }

  // What follows the group: closing actions by stage, and a pending follow-up question.
  function Closing(stage: Stage, followUp: Option<string>): seq<Act> {
    (if stage == Lost then [CloseLost] else if stage == HumanHandoff then [HandOver] else []) +
    (if followUp.Some? then [FollowUp(followUp.value)] else [])
  }

  function PendingActions(sendReply: bool, stage: Stage, packs: map<string, RawPack>, ms: seq<Message>,
                          followUp: Option<string>): seq<Act> {
    if !sendReply then
      if stage == Lost then [CloseLost] else if stage == DoNotContact then [MarkDoNotContact] else []
    else
      Actions(Parts(packs, ms), |Parts(packs, ms)|) + Closing(stage, followUp)
  }

  // outgoing_action_count, computed on its own before any action is built
  method OutgoingActionCount(packs: map<string, RawPack>, ms: seq<Message>) returns (total: nat)
    ensures total == |Parts(packs, ms)|
  {
    total := 0;
    assert Parts(packs, ms[..0]) == [];
    hide Parts, VoiceParts, PackItems;
    for i := 0 to |ms|
      invariant total == |Parts(packs, ms[..i])|
    {
      PartsSnoc(packs, ms, i);
      if ms[i].kind == VoicePackKind {
        var items := VoicePackActionItems(packs, PackId(ms[i]));
        VoicePartsLength(items);
        total := total + |items|;
      } else if ms[i].kind == TextKind && Truthy(ms[i].text) {
        total := total + 1;
      }
    }
    assert ms[..|ms|] == ms;
  }

  lemma PartsSnoc(packs: map<string, RawPack>, ms: seq<Message>, i: nat)
    requires i < |ms|
    ensures Parts(packs, ms[..i + 1]) == Parts(packs, ms[..i]) + PartsOfMessage(packs, ms[i])
  {
    assert ms[..i + 1][..i] == ms[..i];
  }

  lemma VoicePartsLength(items: seq<VoiceItem>)
    ensures |VoiceParts(items)| == |items|
  {
    if items != [] {
      VoicePartsLength(items[..|items| - 1]);
    }
  }

  // The inner loop: one send per item of a voice pack, after the parts already done.
  method SendVoicePack(ghost done: seq<Part>, items: seq<VoiceItem>, index: nat, size: nat, elapsed: int)
    returns (sends: seq<Act>, groupIndex: nat, cumulativeDelaySeconds: int)
    requires index == |done| && elapsed == Elapsed(done)
    ensures Actions(done + VoiceParts(items), size) == Actions(done, size) + sends
    ensures groupIndex == |done + VoiceParts(items)|
    ensures cumulativeDelaySeconds == Elapsed(done + VoiceParts(items))
  {
    sends, groupIndex, cumulativeDelaySeconds := [], index, elapsed;
    ghost var all := done;
    hide Actions, Elapsed, Truncate;
    for j := 0 to |items|
      invariant all == done + VoiceParts(items[..j])
      invariant Actions(all, size) == Actions(done, size) + sends && groupIndex == |all|
      invariant cumulativeDelaySeconds == Elapsed(all)
    {
      var part := VoicePart(items[j]);
      assert items[..j + 1][..j] == items[..j];
      ActionsSnoc(all, part, size);
      groupIndex := groupIndex + 1;
      var delaySeconds :=
        if items[j].delaySeconds.Some? then items[j].delaySeconds.value else cumulativeDelaySeconds;
      sends := sends + [Send(part, delaySeconds, groupIndex, size)];
      cumulativeDelaySeconds := Max(cumulativeDelaySeconds, delaySeconds + RecordingSeconds(items[j]));
      all := all + [part];
    }
    assert items[..|items|] == items;
  }

  // pending_actions_from_outgoing: two nested loops that share a counter and a running delay.
  method PendingActionsFromOutgoing(sendReply: bool, stage: Stage, packs: map<string, RawPack>, ms: seq<Message>,
                                    followUp: Option<string>) returns (actions: seq<Act>)
    ensures actions == PendingActions(sendReply, stage, packs, ms, followUp)
  {
    if !sendReply {
      return if stage == Lost then [CloseLost] else if stage == DoNotContact then [MarkDoNotContact] else [];
    }
    actions := ReplyActions(packs, ms);
    hide Actions, Parts;
    ghost var group := actions;
    if stage == Lost {
      actions := actions + [CloseLost];
    } else if stage == HumanHandoff {
      actions := actions + [HandOver];
    }
    if followUp.Some? {
      actions := actions + [FollowUp(followUp.value)];
    }
    assert actions == group + Closing(stage, followUp);
  }

  method ReplyActions(packs: map<string, RawPack>, ms: seq<Message>) returns (actions: seq<Act>)
    ensures actions == Actions(Parts(packs, ms), |Parts(packs, ms)|)
  {
    hide Actions, Elapsed, Parts, VoiceParts, PackItems, RecordingSeconds;
    var groupSize := OutgoingActionCount(packs, ms);
    NothingDone(packs, groupSize);
    actions := [];
    var groupIndex := 0;
    var cumulativeDelaySeconds := 0;
    ghost var done: seq<Part> := [];
    assert ms[..0] == [];
    for i := 0 to |ms|
      invariant done == Parts(packs, ms[..i])
      invariant actions == Actions(done, groupSize) && groupIndex == |done|
      invariant cumulativeDelaySeconds == Elapsed(done)
    {
      PartsSnoc(packs, ms, i);
      if ms[i].kind == VoicePackKind {
        var items := VoicePackActionItems(packs, PackId(ms[i]));
        var sends;
        sends, groupIndex, cumulativeDelaySeconds :=
          SendVoicePack(done, items, groupIndex, groupSize, cumulativeDelaySeconds);
        actions := actions + sends;
        done := done + VoiceParts(items);
      } else if ms[i].kind == TextKind && Truthy(ms[i].text) {
        var part := TextPart(ms[i].text.value, ms[i].delaySeconds);
        ActionsSnoc(done, part, groupSize);
        groupIndex := groupIndex + 1;
        var delaySeconds := if ms[i].delaySeconds.Some? then ms[i].delaySeconds.value else cumulativeDelaySeconds;
        actions := actions + [Send(part, delaySeconds, groupIndex, groupSize)];
        done := done + [part];
      } else {
        assert done + [] == done;
      }
    }
    assert ms[..|ms|] == ms;
  }

  lemma NothingDone(packs: map<string, RawPack>, size: nat)
    ensures Parts(packs, []) == [] && Actions([], size) == [] && Elapsed([]) == 0
  {
  }

  lemma ActionsSnoc(parts: seq<Part>, part: Part, size: nat)
    ensures Actions(parts + [part], size) == Actions(parts, size) + [Action(parts, part, size)]
    ensures Elapsed(parts + [part]) == ElapsedAfter(Elapsed(parts), part)
  {
    assert (parts + [part])[..|parts + [part]| - 1] == parts;
  }

  // The group is numbered 1, 2, ... up to exactly the size every action states, in order.
  lemma {:induction false} NumberedInOrder(parts: seq<Part>, size: nat, k: nat)
    requires k < |parts|
    ensures Actions(parts, size)[k] == Action(parts[..k], parts[k], size)
    ensures var a := Actions(parts, size)[k];
            a.Send? && a.part == parts[k] && a.groupIndex == k + 1 && a.groupSize == size
  {
    var n := |parts| - 1;
    if k < n {
      NumberedInOrder(parts[..n], size, k);
      assert parts[..n][..k] == parts[..k];
    }
  }

  // The recording times of the voice parts, each counted only if positive.
  function RecordedSeconds(parts: seq<Part>): int {
    if parts == [] then 0
    else
      var last := parts[|parts| - 1];
      RecordedSeconds(parts[..|parts| - 1]) + if last.VoicePart? then Max(0, RecordingSeconds(last.item)) else 0
  }

  predicate NoExplicitDelay(parts: seq<Part>) {
    forall i :: 0 <= i < |parts| ==> parts[i].OwnDelay() == None
  }

  // With no explicit delays an action waits for all recordings before it ...
  lemma {:induction false} DelayIsRecordingBefore(parts: seq<Part>, size: nat, k: nat)
    requires NoExplicitDelay(parts) && k < |parts|
    ensures Actions(parts, size)[k].Send?
    ensures Actions(parts, size)[k].delaySeconds == RecordedSeconds(parts[..k]) >= 0
  {
    NumberedInOrder(parts, size, k);
    ElapsedIsRecorded(parts[..k]);
  }

  lemma {:induction false} ElapsedIsRecorded(parts: seq<Part>)
    requires NoExplicitDelay(parts)
    ensures Elapsed(parts) == RecordedSeconds(parts) >= 0
  {
    if parts != [] {
      ElapsedIsRecorded(parts[..|parts| - 1]);
    }
  }

  // ... so the delays of a group never decrease.
  lemma {:induction false} DelaysNeverDecrease(parts: seq<Part>, size: nat, i: nat, k: nat)
    requires NoExplicitDelay(parts) && i <= k < |parts|
    ensures Actions(parts, size)[i].Send? && Actions(parts, size)[k].Send?
    ensures Actions(parts, size)[i].delaySeconds <= Actions(parts, size)[k].delaySeconds
  {
    DelayIsRecordingBefore(parts, size, i);
    DelayIsRecordingBefore(parts, size, k);
    RecordedGrows(parts[..k], i);
    assert parts[..k][..i] == parts[..i];
  }

  lemma {:induction false} RecordedGrows(parts: seq<Part>, i: nat)
    requires i <= |parts|
    ensures RecordedSeconds(parts[..i]) <= RecordedSeconds(parts)
  {
    if i < |parts| {
      RecordedGrows(parts[..|parts| - 1], i);
      assert parts[..|parts| - 1][..i] == parts[..i];
    } else {
      assert parts[..i] == parts;
    }
  }

  // A question asked in the outgoing messages ends up in a queued text action.
  lemma {:induction false} AskedIsQueued(packs: map<string, RawPack>, ms: seq<Message>, stage: Stage,
                                         followUp: Option<string>, q: string)
    requires Asks(ms, q) && q != ""
    ensures var acts := PendingActions(true, stage, packs, ms, followUp);
            exists k :: 0 <= k < |acts| && acts[k].Send? && acts[k].part.TextPart? && Has(acts[k].part.text, q)
  {
    hide Has;
    var k := PartAsking(packs, ms, q);
    var parts := Parts(packs, ms);
    NumberedInOrder(parts, |parts|, k);
    assert PendingActions(true, stage, packs, ms, followUp)[k] == Actions(parts, |parts|)[k];
  }

  lemma {:induction false} PartAsking(packs: map<string, RawPack>, ms: seq<Message>, q: string) returns (k: nat)
    requires Asks(ms, q) && q != ""
    ensures var parts := Parts(packs, ms);
            k < |parts| && parts[k].TextPart? && Has(parts[k].text, q)
  {
    var n := |ms| - 1;
    var last := ms[n];
    if last.kind == TextKind && last.text.Some? && Has(last.text.value, q) {
      k := |Parts(packs, ms[..n])|;
    } else {
      hide Has;
      assert Asks(ms[..n], q) by {
        var m :| m in ms && m.kind == TextKind && m.text.Some? && Has(m.text.value, q);
        assert m in ms[..n];
      }
      k := PartAsking(packs, ms[..n], q);
    }
  }
}
