// The quiet window before an inbound turn is answered (app/services/brain_v2/turn_buffer.py).
module TurnBuffer {
  import opened Basics

  type MessageId = nat
  type JobId = nat

  datatype Message = Message(id: MessageId, sentAt: int, createdAt: int)

  // The fields of LeadBrainState that the buffer uses.
  datatype BrainState = BrainState(
    activityAt: Option<int>,
    typingAt: Option<int>,
    debounceUntil: Option<int>,
    lastProcessed: Option<MessageId>)

  datatype JobStatus = Queued | Retry | Processing | Sent | Cancelled | Closed

  // What the buffer sees of one dialog: its inbound messages, the lead's state, its outbound jobs.
  datatype Dialog = Dialog(messages: seq<Message>, state: BrainState, jobs: map<JobId, JobStatus>)

  datatype Reason = NoReason | CoveredByNewer | AlreadyProcessed | Waiting

  datatype Result = Result(ready: bool, retryAt: Option<int>, reason: Reason, latest: Option<Message>)

  const NO_STATE := BrainState(None, None, None, None)

  predicate Newer(a: Message, b: Message) {
    a.sentAt > b.sentAt || (a.sentAt == b.sentAt && a.createdAt > b.createdAt)
  }

  // ORDER BY sent_at DESC, created_at DESC LIMIT 1
  function LatestInbound(messages: seq<Message>): (r: Option<Message>)
    ensures r.Some? <==> messages != []
    ensures r.Some? ==> r.value in messages && forall m <- messages :: !Newer(m, r.value)
  {
    if messages == [] then None
    else
      var last := messages[|messages| - 1];
      assert messages == messages[..|messages| - 1] + [last];
      match LatestInbound(messages[..|messages| - 1])
      case None => Some(last)
      case Some(best) => if Newer(last, best) then Some(last) else Some(best)
  }

  function Later(a: int, b: int): int {
    if a < b then b else a
  }

  // The end of the quiet window: _retry_at_for_state before it looks at the clock.
  function QuietFrom(s: BrainState, debounce: nat): Option<int> {
    match (s.debounceUntil, s.typingAt)
    case (None, None) => None
    case (Some(d), None) => Some(d)
    case (None, Some(t)) => Some(t + debounce)
    case (Some(d), Some(t)) => Some(Later(d, t + debounce))
  }

  function CancelledAll(jobs: map<JobId, JobStatus>): map<JobId, JobStatus> {
    map id <- jobs :: if jobs[id] == Queued || jobs[id] == Retry then Cancelled else jobs[id]
  }

  function Noticed(s: BrainState, m: Message, debounce: nat): BrainState {
    s.(activityAt := Some(m.sentAt), debounceUntil := Some(m.sentAt + debounce))
  }

  // mark_processed
  function Processed(s: BrainState, m: Message): BrainState {
    s.(lastProcessed := Some(m.id))
  }

  // prepare_inbound_turn; lead = false stands for a dialog without a lead.
  function Prepare(d: Dialog, debounce: nat, lead: bool, messageId: Option<MessageId>, now: int): (Dialog, Result) {
    match LatestInbound(d.messages)
    case None => (d, Result(true, None, NoReason, None))
    case Some(m) =>
      if messageId.Some? && messageId.value != m.id then (d, Result(false, None, CoveredByNewer, Some(m)))
      else if lead && d.state.lastProcessed == Some(m.id) then (d, Result(false, None, AlreadyProcessed, Some(m)))
      else
        var d1 := d.(jobs := CancelledAll(d.jobs), state := if lead then Noticed(d.state, m, debounce) else d.state);
        var quiet := QuietFrom(d1.state, debounce);
        if lead && quiet.Some? && quiet.value > now then (d1, Result(false, quiet, Waiting, Some(m)))
        else (d1, Result(true, None, NoReason, Some(m)))
  }

  // record_typing_activity; stamp is the time the event itself carries, if it carries one.
  function Typed(d: Dialog, debounce: nat, lead: bool, stamp: Option<int>, now: int): Dialog {
    var d1 := d.(jobs := CancelledAll(d.jobs));
    if lead then
      d1.(state := d.state.(activityAt := Some(now), debounceUntil := Some(now + debounce),
                            typingAt := if stamp.Some? then stamp else Some(now)))
    else d1
  }

  class TurnBufferService {
    const debounceSeconds: nat
    var messages: seq<Message>
    var state: BrainState
    var jobs: map<JobId, JobStatus>

    constructor (debounceSeconds: int, messages: seq<Message>, jobs: map<JobId, JobStatus>)
      ensures this.debounceSeconds == Later(0, debounceSeconds) && State() == Dialog(messages, NO_STATE, jobs)
    {
      this.debounceSeconds := Later(0, debounceSeconds);
      this.messages, this.state, this.jobs := messages, NO_STATE, jobs;
    }

    function State(): Dialog
      reads this
    {
      Dialog(messages, state, jobs)
    }

    method PrepareInboundTurn(lead: bool, messageId: Option<MessageId>, now: int) returns (r: Result)
      modifies this
      ensures (State(), r) == Prepare(old(State()), debounceSeconds, lead, messageId, now)
      ensures r.reason in {NoReason, Waiting} && r.latest.Some? ==> NonePending()
    {
      var latest := LatestInbound(messages);
      if latest.None? {
        return Result(true, None, NoReason, None);
      }
      var m := latest.value;
      if messageId.Some? && messageId.value != m.id {
        return Result(false, None, CoveredByNewer, latest);
      }
      if lead && state.lastProcessed == Some(m.id) {
        return Result(false, None, AlreadyProcessed, latest);
      }
      CancelPendingOutbound();
      if lead {
        state := state.(activityAt := Some(m.sentAt), debounceUntil := Some(m.sentAt + debounceSeconds));
        var retryAt := RetryAtForState(now);
        if retryAt.Some? {
          return Result(false, retryAt, Waiting, latest);
        }
      }
      r := Result(true, None, NoReason, latest);
    }

    // _retry_at_for_state: the latest of up to three times, if it is still to come.
    method RetryAtForState(now: int) returns (retryAt: Option<int>)
      ensures var quiet := QuietFrom(state, debounceSeconds);
              retryAt == if quiet.Some? && quiet.value > now then quiet else None
    {
      var candidates := [];
      if state.debounceUntil.Some? {
        candidates := candidates + [state.debounceUntil.value];
      }
      if state.typingAt.Some? {
        candidates := candidates + [state.typingAt.value];
        candidates := candidates + [state.typingAt.value + debounceSeconds];
      }
      if candidates == [] {
        return None;
      }
      var best := candidates[0];
      for i := 1 to |candidates|
        invariant best in candidates && forall k :: 0 <= k < i ==> candidates[k] <= best
      {
        best := Later(best, candidates[i]);
      }
      assert state.debounceUntil.Some? ==> candidates[0] == state.debounceUntil.value;
      assert state.typingAt.Some? ==> candidates[|candidates| - 1] == state.typingAt.value + debounceSeconds;
      retryAt := if best > now then Some(best) else None;
    }

    method RecordTypingActivity(lead: bool, stamp: Option<int>, now: int)
      modifies this
      ensures State() == Typed(old(State()), debounceSeconds, lead, stamp, now)
      ensures NonePending()
    {
      CancelPendingOutbound();
      if !lead {
        return;
      }
      state := state.(activityAt := Some(now), debounceUntil := Some(now + debounceSeconds),
                      typingAt := if stamp.Some? then stamp else Some(now));
    }

    method MarkProcessed(message: Option<Message>)
      modifies this`state
      ensures state == if message.None? then old(state) else Processed(old(state), message.value)
      ensures message.Some? && LatestInbound(messages) == message ==>
                forall id, now :: !Prepare(State(), debounceSeconds, true, id, now).1.ready
    {
      if message.Some? {
        state := state.(lastProcessed := Some(message.value.id));
      }
    }

    // No reply is waiting to be sent.
    predicate NonePending()
      reads this
    {
      forall id <- jobs :: jobs[id] != Queued && jobs[id] != Retry
    }

    method CancelPendingOutbound()
      modifies this`jobs
      ensures jobs == CancelledAll(old(jobs)) && NonePending()
    {
      var rest := jobs.Keys;
      while rest != {}
        invariant rest <= jobs.Keys == old(jobs).Keys
        invariant forall id <- jobs :: jobs[id] == if id in rest then old(jobs)[id] else CancelledAll(old(jobs))[id]
      {
        var id :| id in rest;
        if jobs[id] == Queued || jobs[id] == Retry {
          jobs := jobs[id := Cancelled];
        }
        rest := rest - {id};
      }
    }
  }

  // A dialog without a lead is never held back.
  lemma NoLeadNoQuietWindow(d: Dialog, debounce: nat, messageId: Option<MessageId>, now: int)
    ensures var r := Prepare(d, debounce, false, messageId, now).1;
            r.ready <==> r.latest.None? || messageId.None? || messageId == Some(r.latest.value.id)
  {
  }

  // What marking a message as processed buys: as long as it is the newest, every call is refused and
  // changes nothing; once a newer one has arrived, calls end as if it had never been marked.
  lemma ProcessedIsRefused(d: Dialog, m: Message, debounce: nat, messageId: Option<MessageId>, now: int)
    ensures var marked := d.(state := Processed(d.state, m));
            var (d', r) := Prepare(marked, debounce, true, messageId, now);
            match LatestInbound(d.messages)
            case None => r == Prepare(d, debounce, true, messageId, now).1
            case Some(latest) =>
              if latest.id == m.id then !r.ready && r.retryAt.None? && d' == marked
              else d.state.lastProcessed != Some(latest.id) ==> r == Prepare(d, debounce, true, messageId, now).1
  {
  }

  // With a lead, exactly the newest message, not yet processed, is released, once the quiet window
  // after it and after the last recorded typing is over.
  lemma ReleasedExactlyWhenQuiet(d: Dialog, debounce: nat, messageId: Option<MessageId>, now: int, m: Message)
    requires LatestInbound(d.messages) == Some(m)
    ensures Prepare(d, debounce, true, messageId, now).1.ready <==>
            && (messageId.None? || messageId.value == m.id)
            && d.state.lastProcessed != Some(m.id)
            && now >= m.sentAt + debounce
            && (d.state.typingAt.Some? ==> now >= d.state.typingAt.value + debounce)
  {
  }

  // The newest message is sent no earlier than any other, and created no earlier than those sent with it.
  lemma NewestInbound(messages: seq<Message>, m: Message)
    requires m in messages
    ensures var newest := LatestInbound(messages);
            && newest.Some? && newest.value in messages && m.sentAt <= newest.value.sentAt
            && (m.sentAt == newest.value.sentAt ==> m.createdAt <= newest.value.createdAt)
  {
    assert !Newer(m, LatestInbound(messages).value);
  }

  // A reply that waits to be sent is cancelled; every other job stays as it was.
  ghost predicate RepliesCancelled(before: map<JobId, JobStatus>, after: map<JobId, JobStatus>) {
    after.Keys == before.Keys &&
    forall id <- before :: after[id] == if before[id] in {Queued, Retry} then Cancelled else before[id]
  }

  // The end of the quiet window after a message and after the typing recorded last.
  predicate WindowEnds(m: Message, typingAt: Option<int>, debounce: nat, t: int) {
    && m.sentAt + debounce <= t && (typingAt.Some? ==> typingAt.value + debounce <= t)
    && (t == m.sentAt + debounce || (typingAt.Some? && t == typingAt.value + debounce))
  }

  // What a call does: nothing if its message is not the newest or is processed already; otherwise it
  // cancels waiting replies, notes the newest message, and is put off exactly to the end of the window.
  lemma WhatPreparingDoes(d: Dialog, debounce: nat, lead: bool, messageId: Option<MessageId>, now: int)
    ensures var (d', r) := Prepare(d, debounce, lead, messageId, now);
            && d'.messages == d.messages && r.latest == LatestInbound(d.messages)
            && (r.latest.None? ==> d' == d && r.ready && r.retryAt.None?)
            && (r.latest.Some? ==>
                  var m := r.latest.value;
                  var newest := messageId.None? || messageId == Some(m.id);
                  var again := lead && d.state.lastProcessed == Some(m.id);
                  && (r.reason == CoveredByNewer <==> !newest)
                  && (r.reason == AlreadyProcessed <==> newest && again)
                  && (r.reason == Waiting <==> r.retryAt.Some?)
                  && if !newest || again then d' == d && !r.ready && r.retryAt.None?
                     else
                       && RepliesCancelled(d.jobs, d'.jobs)
                       && d'.state == (if lead then d.state.(activityAt := Some(m.sentAt),
                                                             debounceUntil := Some(m.sentAt + debounce))
                                       else d.state)
                       && (r.ready <==> r.retryAt.None?)
                       && (r.retryAt.Some? ==>
                             && lead && now < r.retryAt.value
                             && WindowEnds(m, d.state.typingAt, debounce, r.retryAt.value))
                       && (r.retryAt.None? && lead ==>
                             exists t :: t <= now && WindowEnds(m, d.state.typingAt, debounce, t)))
  {
    var r := Prepare(d, debounce, lead, messageId, now).1;
    if r.latest.Some? {
      var m := r.latest.value;
      var t := if d.state.typingAt.None? then m.sentAt + debounce
               else Later(m.sentAt + debounce, d.state.typingAt.value + debounce);
      assert WindowEnds(m, d.state.typingAt, debounce, t);
    }
    hide LatestInbound;
  }

  // What a typing event does: it cancels waiting replies and, with a lead, keeps the time it carries, or
  // else the present, as the time of typing.
  lemma WhatTypingDoes(d: Dialog, debounce: nat, lead: bool, stamp: Option<int>, now: int)
    ensures var d' := Typed(d, debounce, lead, stamp, now);
            && d'.messages == d.messages && RepliesCancelled(d.jobs, d'.jobs)
            && (!lead ==> d'.state == d.state)
            && (lead ==>
                  && d'.state.activityAt == Some(now) && d'.state.debounceUntil == Some(now + debounce)
                  && d'.state.typingAt.Some? && d'.state.typingAt.value == (if stamp.Some? then stamp.value else now)
                  && d'.state.lastProcessed == d.state.lastProcessed)
  {
  }

  // ---- Typing events that carry an old time ----

  // After typing recorded at time r, the quiet window counted from r is kept by every later call
  // exactly when the time the event carried, or the newest message, is not older than r.
  lemma TypingWindowKeptIff(d: Dialog, debounce: nat, stamp: int, recorded: int, m: Message)
    requires debounce > 0 && LatestInbound(d.messages) == Some(m) && d.state.lastProcessed != Some(m.id)
    ensures var d1 := Typed(d, debounce, true, Some(stamp), recorded);
            (forall now :: now >= recorded && Prepare(d1, debounce, true, Some(m.id), now).1.ready ==>
               now >= recorded + debounce) <==>
            Later(stamp, m.sentAt) >= recorded
  {
    var d1 := Typed(d, debounce, true, Some(stamp), recorded);
    forall now
      ensures Prepare(d1, debounce, true, Some(m.id), now).1.ready <==> now >= Later(stamp, m.sentAt) + debounce
    {
      ReleasedExactlyWhenQuiet(d1, debounce, Some(m.id), now, m);
    }
    hide Prepare;
    if Later(stamp, m.sentAt) < recorded {
      var early := Later(recorded, Later(stamp, m.sentAt) + debounce);
      assert Prepare(d1, debounce, true, Some(m.id), early).1.ready && recorded <= early < recorded + debounce;
    }
  }

  // ---- Runs ----

  datatype Release = Release(message: Message, at: int, known: nat, typings: nat)

  // A dialog with a lead over time. Every release is followed by mark_processed.
  datatype World = World(
    dialog: Dialog,
    clock: int,
    releases: seq<Release>,       // ... with how many messages and typing events there were by then
    typed: seq<int>,              // the time stored by each recorded typing event
    activities: nat,              // messages that arrived and typing events that were recorded
    deferrals: nat,
    retryAt: Option<int>)         // of the last deferral, while nothing has happened since

  datatype Event =
    | Arrive(message: Message)
    | Typing(stamp: Option<int>, now: int)
    | Turn(messageId: Option<MessageId>, now: int)

  // Messages have ids and times of their own, the clock does not run backwards, and a deferred turn
  // is not tried again before its time unless something happened.
  ghost predicate Enabled(w: World, e: Event) {
    match e
    case Arrive(m) => forall k <- w.dialog.messages :: k.id != m.id && (Newer(k, m) || Newer(m, k))
    case Typing(_, now) => w.clock <= now
    case Turn(_, now) => w.clock <= now && (w.retryAt.Some? ==> w.retryAt.value <= now)
  }

  ghost function Step(w: World, debounce: nat, e: Event): World {
    if !Enabled(w, e) then w
    else
      match e
      case Arrive(m) =>
        w.(dialog := w.dialog.(messages := w.dialog.messages + [m]), activities := w.activities + 1, retryAt := None)
      case Typing(stamp, now) =>
        w.(dialog := Typed(w.dialog, debounce, true, stamp, now), clock := now,
           typed := w.typed + [if stamp.Some? then stamp.value else now],
           activities := w.activities + 1, retryAt := None)
      case Turn(messageId, now) =>
        var (d, r) := Prepare(w.dialog, debounce, true, messageId, now);
        if r.ready && r.latest.Some? then
          var m := r.latest.value;
          w.(dialog := d.(state := Processed(d.state, m)), clock := now,
             releases := w.releases + [Release(m, now, |w.dialog.messages|, |w.typed|)])
        else if r.retryAt.Some? then
          w.(dialog := d, clock := now, deferrals := w.deferrals + 1, retryAt := r.retryAt)
        else w.(dialog := d, clock := now)
  }

  ghost function Play(debounce: nat, jobs: map<JobId, JobStatus>, evs: seq<Event>): World {
    if evs == [] then World(Dialog([], NO_STATE, jobs), 0, [], [], 0, 0, None)
    else Step(Play(debounce, jobs, evs[..|evs| - 1]), debounce, evs[|evs| - 1])
  }

  ghost predicate MessagesDiffer(w: World) {
    forall i, k :: 0 <= i < k < |w.dialog.messages| ==>
      var a, b := w.dialog.messages[i], w.dialog.messages[k];
      a.id != b.id && (Newer(a, b) || Newer(b, a))
  }

  ghost predicate ReleasesInOrder(w: World) {
    forall i, k :: 0 <= i < k < |w.releases| ==> Newer(w.releases[k].message, w.releases[i].message)
  }

  ghost predicate ReleasesKnown(w: World) {
    && (forall i :: 0 <= i < |w.releases| ==> w.releases[i].message in w.dialog.messages)
    && (if w.releases == [] then w.dialog.state.lastProcessed.None?
        else w.dialog.state.lastProcessed == Some(w.releases[|w.releases| - 1].message.id))
  }

  predicate QuietRelease(r: Release, debounce: nat, messages: seq<Message>, typed: seq<int>) {
    && r.known <= |messages| && r.typings <= |typed|
    && (forall k :: 0 <= k < r.known ==> r.at >= messages[k].sentAt + debounce)
    && (r.typings > 0 ==> r.at >= typed[r.typings - 1] + debounce)
  }

  ghost predicate ReleasesQuiet(w: World, debounce: nat) {
    && (w.dialog.state.typingAt == if w.typed == [] then None else Some(w.typed[|w.typed| - 1]))
    && forall i :: 0 <= i < |w.releases| ==> QuietRelease(w.releases[i], debounce, w.dialog.messages, w.typed)
  }

  // When nothing has happened since a deferral, the window it named is still the window; and every
  // deferral has an activity of its own before it.
  ghost predicate DeferralsPaid(w: World, debounce: nat) {
    && w.deferrals <= w.activities
    && (w.retryAt.None? && w.activities > 0 ==> w.deferrals < w.activities)
    && (w.activities == 0 ==> w.dialog.messages == [])
    && (w.retryAt.Some? ==>
          && LatestInbound(w.dialog.messages).Some?
          && var m := LatestInbound(w.dialog.messages).value;
             QuietFrom(Noticed(w.dialog.state, m, debounce), debounce).value <= w.retryAt.value)
  }

  ghost predicate Sound(w: World, debounce: nat) {
    && MessagesDiffer(w) && ReleasesInOrder(w) && ReleasesKnown(w)
    && ReleasesQuiet(w, debounce) && DeferralsPaid(w, debounce)
  }

  lemma ArriveKeepsSound(w: World, debounce: nat, m: Message)
    requires Sound(w, debounce) && Enabled(w, Arrive(m))
    ensures Sound(Step(w, debounce, Arrive(m)), debounce)
  {
  }

  lemma TypingKeepsSound(w: World, debounce: nat, stamp: Option<int>, now: int)
    requires Sound(w, debounce) && Enabled(w, Typing(stamp, now))
    ensures Sound(Step(w, debounce, Typing(stamp, now)), debounce)
  {
  }

  lemma TurnKeepsSound(w: World, debounce: nat, messageId: Option<MessageId>, now: int)
    requires Sound(w, debounce) && Enabled(w, Turn(messageId, now))
    ensures Sound(Step(w, debounce, Turn(messageId, now)), debounce)
  {
    hide Step, Enabled, ReleasesInOrder, ReleasesKnown, ReleasesQuiet, DeferralsPaid;
    TurnKeepsMessages(w, debounce, messageId, now);
    TurnKeepsOrder(w, debounce, messageId, now);
    TurnKeepsQuiet(w, debounce, messageId, now);
    TurnKeepsPaid(w, debounce, messageId, now);
  }

  lemma TurnKeepsMessages(w: World, debounce: nat, messageId: Option<MessageId>, now: int)
    ensures Step(w, debounce, Turn(messageId, now)).dialog.messages == w.dialog.messages
  {
    hide LatestInbound, Enabled;
  }

  // A new release is of a message newer than the one released last.
  lemma TurnKeepsOrder(w: World, debounce: nat, messageId: Option<MessageId>, now: int)
    requires MessagesDiffer(w) && ReleasesInOrder(w) && ReleasesKnown(w) && Enabled(w, Turn(messageId, now))
    ensures var w' := Step(w, debounce, Turn(messageId, now)); ReleasesInOrder(w') && ReleasesKnown(w')
  {
    hide LatestInbound, CancelledAll, QuietFrom;
    var r := Prepare(w.dialog, debounce, true, messageId, now).1;
    if r.ready && r.latest.Some? && w.releases != [] {
      var last := w.releases[|w.releases| - 1].message;
      assert last in w.dialog.messages && r.latest.value in w.dialog.messages;
      assert last.id != r.latest.value.id && !Newer(last, r.latest.value);
      assert Newer(r.latest.value, last);
    }
    hide MessagesDiffer, Newer;
  }

  lemma TurnKeepsQuiet(w: World, debounce: nat, messageId: Option<MessageId>, now: int)
    requires ReleasesQuiet(w, debounce) && Enabled(w, Turn(messageId, now))
    ensures ReleasesQuiet(Step(w, debounce, Turn(messageId, now)), debounce)
  {
    var r := Prepare(w.dialog, debounce, true, messageId, now).1;
    if r.ready && r.latest.Some? {
      ReleasedExactlyWhenQuiet(w.dialog, debounce, messageId, now, r.latest.value);
      forall k | 0 <= k < |w.dialog.messages| ensures now >= w.dialog.messages[k].sentAt + debounce {
        assert !Newer(w.dialog.messages[k], r.latest.value);
      }
    }
    hide LatestInbound;
  }

  lemma TurnKeepsPaid(w: World, debounce: nat, messageId: Option<MessageId>, now: int)
    requires DeferralsPaid(w, debounce) && Enabled(w, Turn(messageId, now))
    ensures DeferralsPaid(Step(w, debounce, Turn(messageId, now)), debounce)
  {
    hide LatestInbound;
  }

  lemma {:induction false} EveryRunIsSound(debounce: nat, jobs: map<JobId, JobStatus>, evs: seq<Event>)
    ensures Sound(Play(debounce, jobs, evs), debounce)
  {
    if evs != [] {
      hide Sound, Step;
      var w, e := Play(debounce, jobs, evs[..|evs| - 1]), evs[|evs| - 1];
      EveryRunIsSound(debounce, jobs, evs[..|evs| - 1]);
      StepKeepsSound(w, debounce, e);
    }
  }

  lemma StepKeepsSound(w: World, debounce: nat, e: Event)
    requires Sound(w, debounce)
    ensures Sound(Step(w, debounce, e), debounce)
  {
    if Enabled(w, e) {
      hide Sound, Step;
      match e {
        case Arrive(m) => ArriveKeepsSound(w, debounce, m);
        case Typing(stamp, now) => TypingKeepsSound(w, debounce, stamp, now);
        case Turn(messageId, now) => TurnKeepsSound(w, debounce, messageId, now);
      }
    }
  }

  // Released messages strictly advance in time order, so none is released twice.
  lemma ReleasesAdvance(debounce: nat, jobs: map<JobId, JobStatus>, evs: seq<Event>, i: nat, k: nat)
    requires i < k < |Play(debounce, jobs, evs).releases|
    ensures var w := Play(debounce, jobs, evs);
            Newer(w.releases[k].message, w.releases[i].message) && w.releases[k].message != w.releases[i].message
  {
    EveryRunIsSound(debounce, jobs, evs);
    hide Play;
  }

  // No message is released before the quiet window is over that follows every message known by then
  // and the last typing recorded by then.
  lemma ReleasedOnlyWhenQuiet(debounce: nat, jobs: map<JobId, JobStatus>, evs: seq<Event>, i: nat)
    requires i < |Play(debounce, jobs, evs).releases|
    ensures var w := Play(debounce, jobs, evs);
            QuietRelease(w.releases[i], debounce, w.dialog.messages, w.typed)
  {
    EveryRunIsSound(debounce, jobs, evs);
    hide Play;
  }

  // Turns are deferred at most once for every message and typing event.
  lemma DeferralsBounded(debounce: nat, jobs: map<JobId, JobStatus>, evs: seq<Event>)
    ensures Play(debounce, jobs, evs).deferrals <= Play(debounce, jobs, evs).activities
  {
    EveryRunIsSound(debounce, jobs, evs);
    hide Play;
  }
}
