// Reading exported chats into dialogues, speaker runs and parts (scripts/annotate_dialogue_examples.py).
module Dialogues {
  import opened Basics

  datatype Speaker = Lead | Recruiter

  // One line of the export, by what the parser's patterns make of it; texts are stripped.
  datatype InputLine =
    | Blank
    | RoleTag(speaker: Speaker, tail: string)
    | Separator
    | Text(text: string, exported: bool)

  datatype DialogueLine = DialogueLine(speaker: Speaker, text: string, lineIndex: nat)

  // dialogue_<n>, a label line made into an id, or a numbered part of a dialogue.
  datatype Id = Numbered(n: nat) | Normalized(title: string, n: nat) | PartOf(source: Id, n: nat)

  datatype Run = Run(speaker: Speaker, messages: seq<string>, indexes: seq<nat>)

  datatype Dialogue = Dialogue(id: Id, lines: seq<DialogueLine>, runs: seq<Run>)

  // is_new_dialogue_opener for a recruiter's message; asked only when the dialogue has lines.
  type Opener = (string, seq<DialogueLine>) -> bool

  // ---- Speaker runs ----

  // One more line: it extends the last run or opens a new one.
  function AddLine(runs: seq<Run>, line: DialogueLine): seq<Run> {
    if runs != [] && runs[|runs| - 1].speaker == line.speaker
    then runs[..|runs| - 1] + [Extended(runs[|runs| - 1], line)]
    else runs + [Run(line.speaker, [line.text], [line.lineIndex])]
  }

  // Consecutive lines of one speaker, as a left fold.
  function SpeakerRuns(lines: seq<DialogueLine>): seq<Run> {
    if lines == [] then [] else AddLine(SpeakerRuns(lines[..|lines| - 1]), lines[|lines| - 1])
  }

  function Extended(r: Run, line: DialogueLine): Run {
    r.(messages := r.messages + [line.text], indexes := r.indexes + [line.lineIndex])
  }

  // speaker_runs
  method ComputeSpeakerRuns(lines: seq<DialogueLine>) returns (runs: seq<Run>)
    ensures runs == SpeakerRuns(lines)
  {
    runs := [];
    var currentSpeaker: Option<Speaker> := None;
    var currentMessages: seq<string>, currentIndexes: seq<nat> := [], [];
    for i := 0 to |lines|
      invariant currentMessages != [] ==> currentSpeaker.Some?
      invariant currentMessages == [] ==> i == 0 && runs == [] && currentIndexes == []
      invariant SpeakerRuns(lines[..i]) == WithCurrent(runs, currentSpeaker, currentMessages, currentIndexes)
    {
      assert lines[..i + 1][..i] == lines[..i];
      var line := lines[i];
      CurrentGrows(runs, currentSpeaker, currentMessages, currentIndexes, line);
      if currentSpeaker != Some(line.speaker) && currentMessages != [] {
        runs := runs + [Run(currentSpeaker.value, currentMessages, currentIndexes)];
        currentMessages, currentIndexes := [], [];
        assert currentMessages + [line.text] == [line.text] && currentIndexes + [line.lineIndex] == [line.lineIndex];
      }
      currentSpeaker := Some(line.speaker);
      currentMessages := currentMessages + [line.text];
      currentIndexes := currentIndexes + [line.lineIndex];
    }
    assert lines[..|lines|] == lines;
    if currentMessages != [] {
      runs := runs + [Run(currentSpeaker.value, currentMessages, currentIndexes)];
    }
  }

  // The closed runs and the run being collected.
  function WithCurrent(runs: seq<Run>, speaker: Option<Speaker>, messages: seq<string>, indexes: seq<nat>): seq<Run> {
    if messages == [] || speaker.None? then runs else runs + [Run(speaker.value, messages, indexes)]
  }

  lemma CurrentGrows(runs: seq<Run>, speaker: Option<Speaker>, messages: seq<string>, indexes: seq<nat>,
                     line: DialogueLine)
    requires messages != [] ==> speaker.Some?
    requires messages == [] ==> runs == [] && indexes == []
    ensures AddLine(WithCurrent(runs, speaker, messages, indexes), line) ==
            if messages != [] && speaker != Some(line.speaker)
            then WithCurrent(runs + [Run(speaker.value, messages, indexes)],
                             Some(line.speaker), [line.text], [line.lineIndex])
            else WithCurrent(runs, Some(line.speaker), messages + [line.text], indexes + [line.lineIndex])
  {
    if messages != [] {
      var current := Run(speaker.value, messages, indexes);
      assert (runs + [current])[..|runs|] == runs;
    } else {
      assert messages + [line.text] == [line.text] && indexes + [line.lineIndex] == [line.lineIndex];
    }
  }

  // A run that carries one index for every message, and at least one.
  predicate WellRun(r: Run) {
    |r.messages| == |r.indexes| > 0
  }

  function LinesOfRun(r: Run): seq<DialogueLine>
    requires |r.messages| == |r.indexes|
  {
    seq(|r.messages|, i requires 0 <= i < |r.messages| => DialogueLine(r.speaker, r.messages[i], r.indexes[i]))
  }

  // Runs that alternate between speakers.
  ghost predicate Alternating(runs: seq<Run>) {
    && (forall i :: 0 <= i < |runs| ==> WellRun(runs[i]))
    && (forall i :: 0 < i < |runs| ==> runs[i - 1].speaker != runs[i].speaker)
  }

  function LinesOf(runs: seq<Run>): seq<DialogueLine>
    requires forall i :: 0 <= i < |runs| ==> WellRun(runs[i])
  {
    if runs == [] then []
    else
      assert WellRun(runs[|runs| - 1]);
      LinesOf(runs[..|runs| - 1]) + LinesOfRun(runs[|runs| - 1])
  }

  lemma AddLineAddsLine(runs: seq<Run>, line: DialogueLine)
    requires Alternating(runs)
    ensures Alternating(AddLine(runs, line)) && LinesOf(AddLine(runs, line)) == LinesOf(runs) + [line]
  {
    var after := AddLine(runs, line);
    var k := |runs| - 1;
    if runs != [] && runs[k].speaker == line.speaker {
      var extended := Extended(runs[k], line);
      assert WellRun(runs[k]);
      assert after[..k] == runs[..k] && after[k] == extended;
      assert LinesOfRun(extended) == LinesOfRun(runs[k]) + [line];
    } else {
      var single := Run(line.speaker, [line.text], [line.lineIndex]);
      assert after[..|runs|] == runs && after[|runs|] == single;
      assert LinesOfRun(single) == [line];
    }
  }

  lemma NoLines()
    ensures SpeakerRuns([]) == [] && Alternating([]) && LinesOf([]) == []
  {
  }

  lemma OneMoreLine(lines: seq<DialogueLine>, line: DialogueLine)
    ensures SpeakerRuns(lines + [line]) == AddLine(SpeakerRuns(lines), line)
  {
    hide AddLine;
    assert (lines + [line])[..|lines + [line]| - 1] == lines;
  }

  // The runs give back the lines, and neighbours differ.
  lemma {:induction false} RunsGiveBackLines(lines: seq<DialogueLine>)
    ensures Alternating(SpeakerRuns(lines)) && LinesOf(SpeakerRuns(lines)) == lines
  {
    hide SpeakerRuns, AddLine, Alternating, LinesOf, LinesOfRun, WellRun;
    if lines == [] {
      NoLines();
    } else {
      var n := |lines| - 1;
      RunsGiveBackLines(lines[..n]);
      AddLineAddsLine(SpeakerRuns(lines[..n]), lines[n]);
      OneMoreLine(lines[..n], lines[n]);
      assert lines == lines[..n] + [lines[n]];
    }
  }

  // Alternating runs without their last line, and that line.
  ghost function WithoutLast(runs: seq<Run>): (seq<Run>, DialogueLine)
    requires runs != [] && Alternating(runs)
  {
    var k := |runs| - 1;
    assert WellRun(runs[k]);
    var last, m := runs[k], |runs[k].messages| - 1;
    var line := DialogueLine(last.speaker, last.messages[m], last.indexes[m]);
    (if m == 0 then runs[..k] else runs[..k] + [Run(last.speaker, last.messages[..m], last.indexes[..m])], line)
  }

  lemma AddLastBack(runs: seq<Run>)
    requires runs != [] && Alternating(runs)
    ensures var (shorter, line) := WithoutLast(runs);
            Alternating(shorter) && AddLine(shorter, line) == runs
  {
    var k := |runs| - 1;
    assert WellRun(runs[k]);
    var (shorter, line) := WithoutLast(runs);
    var m := |runs[k].messages| - 1;
    assert runs == runs[..k] + [runs[k]];
    if m == 0 {
      assert runs[k].messages == [line.text] && runs[k].indexes == [line.lineIndex];
      assert shorter == [] || shorter[|shorter| - 1] == runs[k - 1];
    } else {
      assert shorter[..k] == runs[..k];
      assert Extended(shorter[k], line) == runs[k];
    }
  }

  // No other alternating runs give back the same lines.
  lemma {:induction false} RunsAreUnique(runs: seq<Run>)
    requires Alternating(runs)
    ensures SpeakerRuns(LinesOf(runs)) == runs
    decreases |LinesOf(runs)|
  {
    if runs != [] {
      var (shorter, line) := WithoutLast(runs);
      AddLastBack(runs);
      AddLineAddsLine(shorter, line);
      hide AddLine, WithoutLast, Alternating;
      assert LinesOf(runs)[..|LinesOf(runs)| - 1] == LinesOf(shorter);
      RunsAreUnique(shorter);
    }
  }
}
