// parse_dialogues as it runs, line by line over its buffers.
module DialogueParser {
  import opened Basics
  import opened Dialogues
  import opened DialoguePasses
  import opened DialogueReading

  class Parser {
    const opener: Opener
    var dialogues: seq<Dialogue>
    var currentId: Id
    var currentLines: seq<DialogueLine>
    var lineIndex: nat
    var currentSpeaker: Option<Speaker>
    var messageBuffer: seq<string>
    ghost var scan: Scan

    constructor (opener: Opener)
      ensures Valid() && scan == START && this.opener == opener
    {
      this.opener := opener;
      dialogues, currentId, currentLines, lineIndex := [], Numbered(1), [], 0;
      currentSpeaker, messageBuffer, scan := None, [], START;
    }

    // The parser has done both passes over what it has read; a label has already closed the dialogue.
    ghost predicate Valid()
      reads this
    {
      && currentSpeaker == scan.speaker && messageBuffer == scan.buffer
      && Holds(GroupAll(scan.msgs, opener), scan.title)
    }

    ghost predicate Holds(g: Grouped, title: Option<string>)
      reads this`dialogues, this`currentId, this`currentLines, this`lineIndex
    {
      && lineIndex == |currentLines|
      && if title.None? then dialogues == g.done && currentId == g.id && currentLines == g.lines
         else dialogues == Closed(g) && currentId == Normalized(title.value, |dialogues| + 1) && currentLines == []
    }

    method CloseDialogue()
      modifies this`dialogues
      ensures dialogues == old(dialogues) + [Payload(currentId, currentLines)]
    {
      var runs := ComputeSpeakerRuns(currentLines);
      dialogues := dialogues + [Dialogue(currentId, currentLines, runs)];
    }

    method JoinBuffer() returns (text: string)
      ensures text == Joined(messageBuffer)
    {
      text := "";
      for i := 0 to |messageBuffer|
        invariant text == Joined(messageBuffer[..i])
      {
        assert messageBuffer[..i + 1][..i] == messageBuffer[..i];
        if messageBuffer[i] != "" {
          text := if text == "" then messageBuffer[i] else text + "\n" + messageBuffer[i];
        }
      }
      assert messageBuffer[..|messageBuffer|] == messageBuffer;
    }

    // flush_message
    method FlushMessage()
      requires Valid()
      modifies this
      ensures Valid() && scan == Flushed(old(scan))
    {
      hide GroupAll, Joined, GroupOne, Holds;
      if currentSpeaker.None? {
        messageBuffer := [];
        scan := Flushed(scan);
        return;
      }
      var text := JoinBuffer();
      if text == "" {
        currentSpeaker, messageBuffer := None, [];
        scan := Flushed(scan);
        return;
      }
      GroupSnoc(scan.msgs, Msg(currentSpeaker.value, text, scan.title), opener);
      AddMessage(GroupAll(scan.msgs, opener), scan.title, currentSpeaker.value, text);
      currentSpeaker, messageBuffer := None, [];
      scan := Flushed(scan);
    }

    // Append a message, in a dialogue of its own if it opens one.
    method AddMessage(ghost g: Grouped, ghost title: Option<string>, speaker: Speaker, text: string)
      requires Holds(g, title)
      modifies this`dialogues, this`currentId, this`currentLines, this`lineIndex
      ensures Holds(GroupOne(g, Msg(speaker, text, title), opener), None)
    {
      hide SpeakerRuns;
      if speaker == Recruiter && currentLines != [] && opener(text, currentLines) {
        CloseDialogue();
        currentId := Numbered(|dialogues| + 1);
        currentLines, lineIndex := [], 0;
      }
      lineIndex := lineIndex + 1;
      currentLines := currentLines + [DialogueLine(speaker, text, lineIndex)];
    }

    // flush_dialogue, at a label line
    method FlushDialogue(title: string)
      requires Valid()
      modifies this
      ensures Valid() && scan == Flushed(old(scan)).(title := Some(title))
    {
      FlushMessage();
      if currentLines != [] {
        CloseDialogue();
        currentLines, lineIndex := [], 0;
      }
      currentId := Normalized(title, |dialogues| + 1);
      scan := scan.(title := Some(title));
    }

    method ReadLine(line: InputLine)
      requires Valid()
      modifies this
      ensures Valid() && scan == ScanLine(old(scan), line)
    {
      match line {
        case Blank =>
        case RoleTag(speaker, tail) =>
          FlushMessage();
          currentSpeaker := Some(speaker);
          messageBuffer := if tail == "" then [] else [tail];
          scan := scan.(speaker := currentSpeaker, buffer := messageBuffer);
        case Separator =>
          FlushMessage();
        case Text(text, exported) =>
          if currentSpeaker.Some? {
            messageBuffer := messageBuffer + [text];
            scan := scan.(buffer := messageBuffer);
          } else if exported && currentLines != [] {
            currentSpeaker, messageBuffer := Some(Recruiter), [text];
            scan := scan.(speaker := currentSpeaker, buffer := messageBuffer);
          } else {
            FlushDialogue(text);
          }
      }
    }

    // parse_dialogues
    method ParseDialogues(lines: seq<InputLine>) returns (result: seq<Dialogue>)
      requires Valid() && scan == START
      modifies this
      ensures result == Parsed(lines, opener)
      ensures Flattened(result) == SpokenMessages(SaidIn(lines, |lines|))
      ensures Cut(result, SaidIn(lines, |lines|), opener)
    {
      for i := 0 to |lines|
        invariant Valid() && scan == ScanAll(lines[..i])
      {
        assert lines[..i + 1][..i] == lines[..i];
        ReadLine(lines[i]);
      }
      assert lines[..|lines|] == lines;
      FlushMessage();
      if currentLines != [] {
        CloseDialogue();
      }
      result := dialogues;
      ParsingKeepsLines(lines, opener);
      DialoguesBeginAtLabels(lines, opener);
    }
  }
}
