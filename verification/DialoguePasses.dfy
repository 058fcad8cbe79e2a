// parse_dialogues as two simple passes: find the messages, then group them.
module DialoguePasses {
  import opened Basics
  import opened Dialogues

  // ---- First pass: messages ----

  // A message, and the label line that came after the message before it, if any (the last of several).
  datatype Msg = Msg(speaker: Speaker, text: string, title: Option<string>)

  datatype Scan = Scan(msgs: seq<Msg>, speaker: Option<Speaker>, buffer: seq<string>, title: Option<string>)

  const START := Scan([], None, [], None)

  // The nonblank parts, joined by line breaks.
  function Joined(parts: seq<string>): string {
    if parts == [] then ""
    else
      var before, last := Joined(parts[..|parts| - 1]), parts[|parts| - 1];
      if last == "" then before else if before == "" then last else before + "\n" + last
  }

  function Flushed(s: Scan): Scan {
    if s.speaker.None? || Joined(s.buffer) == "" then s.(speaker := None, buffer := [])
    else Scan(s.msgs + [Msg(s.speaker.value, Joined(s.buffer), s.title)], None, [], None)
  }

  function ScanLine(s: Scan, line: InputLine): Scan {
    match line
    case Blank => s
    case RoleTag(speaker, tail) => Flushed(s).(speaker := Some(speaker), buffer := if tail == "" then [] else [tail])
    case Separator => Flushed(s)
    case Text(text, exported) =>
      if s.speaker.Some? then s.(buffer := s.buffer + [text])
      else if exported && s.msgs != [] && s.title.None? then s.(speaker := Some(Recruiter), buffer := [text])
      else Flushed(s).(title := Some(text))
  }

  function ScanAll(lines: seq<InputLine>): Scan {
    if lines == [] then START else ScanLine(ScanAll(lines[..|lines| - 1]), lines[|lines| - 1])
  }

  // The messages of an export, in order.
  function Messages(lines: seq<InputLine>): seq<Msg> {
    Flushed(ScanAll(lines)).msgs
  }

  // ---- Second pass: dialogues ----

  datatype Grouped = Grouped(done: seq<Dialogue>, id: Id, lines: seq<DialogueLine>)

  // dialogue_payload
  function Payload(id: Id, lines: seq<DialogueLine>): Dialogue {
    Dialogue(id, lines, SpeakerRuns(lines))
  }

  function Closed(g: Grouped): seq<Dialogue> {
    if g.lines == [] then g.done else g.done + [Payload(g.id, g.lines)]
  }

  predicate Opens(g: Grouped, m: Msg, opener: Opener) {
    m.speaker == Recruiter && g.lines != [] && opener(m.text, g.lines)
  }

  // A message after a label, or one that opens a dialogue, starts a new dialogue.
  function GroupOne(g: Grouped, m: Msg, opener: Opener): Grouped {
    if m.title.Some? then
      Grouped(Closed(g), Normalized(m.title.value, |Closed(g)| + 1), [DialogueLine(m.speaker, m.text, 1)])
    else if Opens(g, m, opener) then Grouped(Closed(g), Numbered(|Closed(g)| + 1), [DialogueLine(m.speaker, m.text, 1)])
    else g.(lines := g.lines + [DialogueLine(m.speaker, m.text, |g.lines| + 1)])
  }

  function GroupAll(msgs: seq<Msg>, opener: Opener): (g: Grouped)
    ensures g.lines != [] <==> msgs != []
  {
    if msgs == [] then Grouped([], Numbered(1), [])
    else GroupOne(GroupAll(msgs[..|msgs| - 1], opener), msgs[|msgs| - 1], opener)
  }

  lemma GroupSnoc(msgs: seq<Msg>, m: Msg, opener: Opener)
    ensures GroupAll(msgs + [m], opener) == GroupOne(GroupAll(msgs, opener), m, opener)
  {
    assert (msgs + [m])[..|msgs + [m]| - 1] == msgs;
  }

  function Parsed(lines: seq<InputLine>, opener: Opener): seq<Dialogue> {
    Closed(GroupAll(Messages(lines), opener))
  }

  // ---- What the two passes keep ----

  // The messages of a dialogue, as speaker and text.
  function Spoken(lines: seq<DialogueLine>): seq<(Speaker, string)> {
    seq(|lines|, i requires 0 <= i < |lines| => (lines[i].speaker, lines[i].text))
  }

  function Flattened(dialogues: seq<Dialogue>): seq<(Speaker, string)> {
    if dialogues == [] then []
    else Flattened(dialogues[..|dialogues| - 1]) + Spoken(dialogues[|dialogues| - 1].lines)
  }

  function SpokenMessages(msgs: seq<Msg>): seq<(Speaker, string)> {
    seq(|msgs|, i requires 0 <= i < |msgs| => (msgs[i].speaker, msgs[i].text))
  }

  // A dialogue with at least one line, numbered from one, with the runs of its lines; the k-th
  // dialogue's id was made with the number k.
  ghost predicate WellFormed(d: Dialogue, k: nat) {
    && d.lines != [] && NumberedFromOne(d.lines)
    && d.runs == SpeakerRuns(d.lines)
    && !d.id.PartOf? && d.id.n == k
  }

  ghost predicate NumberedFromOne(lines: seq<DialogueLine>) {
    forall i :: 0 <= i < |lines| ==> lines[i].lineIndex == i + 1
  }

  lemma FlattenedSnoc(dialogues: seq<Dialogue>, d: Dialogue)
    ensures Flattened(dialogues + [d]) == Flattened(dialogues) + Spoken(d.lines)
  {
    assert (dialogues + [d])[..|dialogues + [d]| - 1] == dialogues;
  }

  ghost predicate GroupedWell(g: Grouped, msgs: seq<Msg>) {
    && (forall k :: 0 <= k < |g.done| ==> WellFormed(g.done[k], k + 1))
    && NumberedFromOne(g.lines) && !g.id.PartOf? && g.id.n == |g.done| + 1
    && Flattened(g.done) + Spoken(g.lines) == SpokenMessages(msgs)
  }

  // Closing a dialogue keeps every message.
  lemma ClosingKeeps(g: Grouped, msgs: seq<Msg>)
    requires GroupedWell(g, msgs)
    ensures Flattened(Closed(g)) == SpokenMessages(msgs)
    ensures forall k :: 0 <= k < |Closed(g)| ==> WellFormed(Closed(g)[k], k + 1)
  {
    if g.lines != [] {
      FlattenedSnoc(g.done, Payload(g.id, g.lines));
    } else {
      assert Spoken(g.lines) == [];
    }
  }

  lemma {:induction false} GroupingKeeps(msgs: seq<Msg>, opener: Opener)
    ensures GroupedWell(GroupAll(msgs, opener), msgs)
  {
    hide Flattened, Spoken, SpokenMessages, WellFormed;
    if msgs == [] {
      NothingGrouped();
    } else {
      var n := |msgs| - 1;
      var before := GroupAll(msgs[..n], opener);
      assert GroupAll(msgs, opener) == GroupOne(before, msgs[n], opener);
      hide GroupedWell, GroupOne, GroupAll;
      GroupingKeeps(msgs[..n], opener);
      OneMoreKeeps(before, msgs[..n], msgs[n], opener);
      assert msgs == msgs[..n] + [msgs[n]];
    }
  }

  lemma NothingGrouped()
    ensures GroupedWell(Grouped([], Numbered(1), []), [])
  {
    assert Flattened([]) + Spoken([]) == SpokenMessages([]);
  }

  lemma OneMoreKeeps(g: Grouped, msgs: seq<Msg>, m: Msg, opener: Opener)
    requires GroupedWell(g, msgs)
    ensures GroupedWell(GroupOne(g, m, opener), msgs + [m])
  {
    hide WellFormed, Flattened;
    ClosingKeeps(g, msgs);
    assert SpokenMessages(msgs + [m]) == SpokenMessages(msgs) + [(m.speaker, m.text)];
    if m.title.Some? || Opens(g, m, opener) {
      assert Spoken([DialogueLine(m.speaker, m.text, 1)]) == [(m.speaker, m.text)];
    } else {
      var extended := g.lines + [DialogueLine(m.speaker, m.text, |g.lines| + 1)];
      assert Spoken(extended) == Spoken(g.lines) + [(m.speaker, m.text)];
    }
  }

  // Parsing loses and reorders nothing, whatever counts as an opener: the dialogues, read one after
  // the other, give the messages of the export; none is empty, and lines are numbered from one.
  lemma ParsingKeepsMessages(lines: seq<InputLine>, opener: Opener)
    ensures Flattened(Parsed(lines, opener)) == SpokenMessages(Messages(lines))
    ensures forall k :: 0 <= k < |Parsed(lines, opener)| ==> WellFormed(Parsed(lines, opener)[k], k + 1)
  {
    GroupingKeeps(Messages(lines), opener);
    ClosingKeeps(GroupAll(Messages(lines), opener), Messages(lines));
  }
}
