// What parsing makes of each line of an export, line by line: who says it, and in which dialogue.
module DialogueReading {
  import opened Basics
  import opened Dialogues
  import opened DialoguePasses

  // ---- The lines of an export ----

  // What a line comes to: a part of a message, a label, or nothing of its own.
  datatype Use = Says(speaker: Speaker, text: string) | Labels(title: string) | Nothing

  predicate Spoken(line: InputLine) {
    line.RoleTag? || line.Text?
  }

  // The last line before line i that is not blank.
  function Previous(lines: seq<InputLine>, i: nat): (p: Option<nat>)
    requires i <= |lines|
    ensures p.Some? ==> p.value < i && !lines[p.value].Blank?
  {
    if i == 0 then None else if lines[i - 1].Blank? then Previous(lines, i - 1) else Some(i - 1)
  }

  // The line that opens the paragraph of line i: the role tag before it or else the first line of text,
  // back to the last separator.
  function Head(lines: seq<InputLine>, i: nat): (h: nat)
    requires i < |lines| && Spoken(lines[i])
    ensures h <= i && Spoken(lines[h])
  {
    var p := Previous(lines, i);
    if lines[i].RoleTag? || p.None? || lines[p.value].Separator? then i else Head(lines, p.value)
  }

  // Who speaks in the paragraph of line i: whom the role tag names; without one, the recruiter, if the
  // paragraph starts with an exported line that follows a message. Nobody speaks in a paragraph of labels.
  function SpeakerOf(lines: seq<InputLine>, i: nat): Option<Speaker>
    requires i < |lines| && Spoken(lines[i])
    decreases i, 1
  {
    match lines[Head(lines, i)]
    case RoleTag(speaker, _) => Some(speaker)
    case Text(_, exported) => if exported && LastUse(lines, Head(lines, i)).Says? then Some(Recruiter) else None
  }

  function UseOf(lines: seq<InputLine>, i: nat): Use
    requires i < |lines|
    decreases i, 2
  {
    match lines[i]
    case RoleTag(speaker, tail) => if tail == "" then Nothing else Says(speaker, tail)
    case Text(text, _) =>
      if SpeakerOf(lines, i).None? then Labels(text)
      else if text == "" then Nothing else Says(SpeakerOf(lines, i).value, text)
    case _ => Nothing
  }

  // What the last line before line n that came to something came to.
  function LastUse(lines: seq<InputLine>, n: nat): Use
    requires n <= |lines|
    decreases n, 0
  {
    if n == 0 then Nothing else if UseOf(lines, n - 1) != Nothing then UseOf(lines, n - 1) else LastUse(lines, n - 1)
  }

  // Something was said between lines h and n.
  ghost predicate SaidBetween(lines: seq<InputLine>, h: nat, n: nat)
    requires n <= |lines|
  {
    exists k :: h <= k < n && UseOf(lines, k) != Nothing
  }

  // The first part of its paragraph begins a message, under the label right before it, if there is one;
  // later parts are further lines of that message.
  ghost function SaidIn(lines: seq<InputLine>, n: nat): seq<Msg>
    requires n <= |lines|
  {
    if n == 0 then []
    else
      var before := SaidIn(lines, n - 1);
      match UseOf(lines, n - 1)
      case Says(speaker, text) =>
        if before == [] || !SaidBetween(lines, Head(lines, n - 1), n - 1)
        then before + [Msg(speaker, text, LabelBefore(lines, n - 1))]
        else
          var last := before[|before| - 1];
          before[..|before| - 1] + [last.(text := last.text + "\n" + text)]
      case _ => before
  }

  ghost function LabelBefore(lines: seq<InputLine>, n: nat): Option<string>
    requires n <= |lines|
  {
    if LastUse(lines, n).Labels? then Some(LastUse(lines, n).title) else None
  }

  // ---- Against the two passes ----

  // Who speaks on after line n, and the line that made it so.
  function OpenLine(lines: seq<InputLine>, n: nat): (p: Option<nat>)
    requires n <= |lines|
    ensures p.Some? ==> p.value < n && Spoken(lines[p.value])
  {
    var p := Previous(lines, n);
    if p.Some? && Spoken(lines[p.value]) then p else None
  }

  function OpenSpeaker(lines: seq<InputLine>, n: nat): Option<Speaker>
    requires n <= |lines|
  {
    if OpenLine(lines, n).None? then None else SpeakerOf(lines, OpenLine(lines, n).value)
  }

  // Where the scan stands after n lines.
  ghost predicate Agrees(s: Scan, lines: seq<InputLine>, n: nat)
    requires n <= |lines|
  {
    && s.speaker == OpenSpeaker(lines, n)
    && (s.speaker.None? ==> s.buffer == [])
    && Flushed(s).msgs == SaidIn(lines, n)
    && Flushed(s).title == LabelBefore(lines, n)
    && (LastUse(lines, n).Says? <==> Flushed(s).msgs != [] && Flushed(s).title.None?)
    && (OpenLine(lines, n).Some? && s.speaker.None? ==> LastUse(lines, n).Labels?)
    && (OpenLine(lines, n).Some? && s.speaker.Some? ==>
          (Joined(s.buffer) != "" <==> SaidBetween(lines, Head(lines, OpenLine(lines, n).value), n)))
  }

  lemma SaidOneMore(lines: seq<InputLine>, h: nat, n: nat)
    requires h <= n < |lines|
    ensures SaidBetween(lines, h, n + 1) <==> SaidBetween(lines, h, n) || UseOf(lines, n) != Nothing
    ensures !SaidBetween(lines, n, n)
  {
    hide UseOf;
    if SaidBetween(lines, h, n) {
      var k :| h <= k < n && UseOf(lines, k) != Nothing;
      assert h <= k < n + 1;
    }
  }

  lemma JoinedSnoc(parts: seq<string>, last: string)
    ensures Joined(parts + [last]) ==
            if last == "" then Joined(parts) else if Joined(parts) == "" then last else Joined(parts) + "\n" + last
  {
    assert (parts + [last])[..|parts + [last]| - 1] == parts;
  }

  lemma ReadsRoleTag(s: Scan, lines: seq<InputLine>, n: nat)
    requires n < |lines| && lines[n].RoleTag? && Agrees(s, lines, n)
    ensures Agrees(ScanLine(s, lines[n]), lines, n + 1)
  {
    var tail := lines[n].tail;
    SaidOneMore(lines, n, n);
    assert [] + [tail] == [tail];
    JoinedSnoc([], tail);
    hide Joined, SaidBetween;
  }

  lemma ReadsBlank(s: Scan, lines: seq<InputLine>, n: nat)
    requires n < |lines| && lines[n].Blank? && Agrees(s, lines, n)
    ensures Agrees(ScanLine(s, lines[n]), lines, n + 1)
  {
    assert OpenLine(lines, n + 1) == OpenLine(lines, n) && LastUse(lines, n + 1) == LastUse(lines, n);
    if OpenLine(lines, n).Some? {
      SaidOneMore(lines, Head(lines, OpenLine(lines, n).value), n);
    }
    hide SaidBetween, Head, Flushed, SpeakerOf, OpenLine;
  }

  lemma ReadsSeparator(s: Scan, lines: seq<InputLine>, n: nat)
    requires n < |lines| && lines[n].Separator? && Agrees(s, lines, n)
    ensures Agrees(ScanLine(s, lines[n]), lines, n + 1)
  {
    assert Flushed(Flushed(s)) == Flushed(s);
    assert Previous(lines, n + 1) == Some(n);
    assert UseOf(lines, n) == Nothing;
    hide SaidBetween, Head, Joined;
  }

  // A line of text goes on with the paragraph of the line before it, or opens one.
  lemma TextFollows(lines: seq<InputLine>, n: nat)
    requires n < |lines| && lines[n].Text?
    ensures Previous(lines, n + 1) == Some(n) && OpenLine(lines, n + 1) == Some(n)
    ensures OpenSpeaker(lines, n + 1) == SpeakerOf(lines, n)
    ensures OpenLine(lines, n).Some? ==>
              Head(lines, n) == Head(lines, OpenLine(lines, n).value) && SpeakerOf(lines, n) == OpenSpeaker(lines, n)
    ensures OpenLine(lines, n).None? ==>
              Head(lines, n) == n &&
              SpeakerOf(lines, n) ==
              if lines[n].exported && LastUse(lines, n).Says? then Some(Recruiter) else None
  {
    hide LastUse;
  }

  lemma ReadsText(s: Scan, lines: seq<InputLine>, n: nat)
    requires n < |lines| && lines[n].Text? && Agrees(s, lines, n)
    ensures Agrees(ScanLine(s, lines[n]), lines, n + 1)
  {
    TextFollows(lines, n);
    SaidOneMore(lines, Head(lines, n), n);
    if s.speaker.Some? {
      ReadsPart(s, lines, n);
    } else if SpeakerOf(lines, n).Some? {
      OpensPart(s, lines, n);
    } else {
      hide SaidBetween, Head, Joined, Previous, OpenLine, OpenSpeaker, SpeakerOf;
    }
  }

  // A further line of the message being read.
  lemma ReadsPart(s: Scan, lines: seq<InputLine>, n: nat)
    requires n < |lines| && lines[n].Text? && Agrees(s, lines, n) && s.speaker.Some?
    ensures Agrees(ScanLine(s, lines[n]), lines, n + 1)
  {
    TextFollows(lines, n);
    SaidOneMore(lines, Head(lines, n), n);
    JoinedSnoc(s.buffer, lines[n].text);
    hide Joined, SaidBetween, Head, Previous, OpenLine, OpenSpeaker, SpeakerOf;
    assert UseOf(lines, n) ==
           if lines[n].text == "" then Nothing else Says(s.speaker.value, lines[n].text);
  }

  // The recruiter goes on in an exported line.
  lemma OpensPart(s: Scan, lines: seq<InputLine>, n: nat)
    requires n < |lines| && lines[n].Text? && Agrees(s, lines, n) && s.speaker.None? && SpeakerOf(lines, n).Some?
    ensures Agrees(ScanLine(s, lines[n]), lines, n + 1)
  {
    TextFollows(lines, n);
    SaidOneMore(lines, Head(lines, n), n);
    JoinedSnoc([], lines[n].text);
    assert [] + [lines[n].text] == [lines[n].text];
    hide Joined, SaidBetween, Head, Previous, OpenLine, OpenSpeaker, SpeakerOf;
  }

  lemma {:induction false} ScanAgrees(lines: seq<InputLine>, n: nat)
    requires n <= |lines|
    ensures Agrees(ScanAll(lines[..n]), lines, n)
  {
    if n > 0 {
      ScanAgrees(lines, n - 1);
      assert lines[..n][..n - 1] == lines[..n - 1];
      hide Agrees, ScanLine;
      var s := ScanAll(lines[..n - 1]);
      match lines[n - 1] {
        case RoleTag(_, _) => ReadsRoleTag(s, lines, n - 1);
        case Text(_, _) => ReadsText(s, lines, n - 1);
        case Blank => ReadsBlank(s, lines, n - 1);
        case Separator => ReadsSeparator(s, lines, n - 1);
      }
    }
  }

  // Parsing loses nothing of an export: the dialogues, read one after the other, give what each line
  // says, in order, attributed to whoever speaks in its paragraph; no dialogue is empty, and lines are
  // numbered from one.
  lemma ParsingKeepsLines(lines: seq<InputLine>, opener: Opener)
    ensures Messages(lines) == SaidIn(lines, |lines|)
    ensures Flattened(Parsed(lines, opener)) == SpokenMessages(SaidIn(lines, |lines|))
    ensures forall k :: 0 <= k < |Parsed(lines, opener)| ==> WellFormed(Parsed(lines, opener)[k], k + 1)
  {
    ScanAgrees(lines, |lines|);
    assert lines[..|lines|] == lines;
    ParsingKeepsMessages(lines, opener);
    hide ScanAll, Parsed;
  }

  // ---- Where dialogues begin ----

  // How many messages come before dialogue k.
  function StartOf(dialogues: seq<Dialogue>, k: nat): nat
    requires k <= |dialogues|
  {
    if k == 0 then 0 else StartOf(dialogues, k - 1) + |dialogues[k - 1].lines|
  }

  predicate CallsForNew(m: Msg, lines: seq<DialogueLine>, opener: Opener) {
    m.title.Some? || (m.speaker == Recruiter && opener(m.text, lines))
  }

  // Line j of dialogue k is a message; it is the first of its dialogue exactly if it is the first of all,
  // comes after a label, or opens a dialogue, judged by the lines of the dialogue it would have joined.
  // The dialogue is named after that label, or by its number.
  ghost predicate CutAt(dialogues: seq<Dialogue>, msgs: seq<Msg>, opener: Opener, k: nat, j: nat)
    requires k < |dialogues| && j < |dialogues[k].lines|
  {
    var d := dialogues[k];
    && StartOf(dialogues, k) + j < |msgs|
    && var m := msgs[StartOf(dialogues, k) + j];
       && d.lines[j] == DialogueLine(m.speaker, m.text, j + 1)
       && (j > 0 ==> !CallsForNew(m, d.lines[..j], opener))
       && (j == 0 && k > 0 ==> CallsForNew(m, dialogues[k - 1].lines, opener))
       && (j == 0 ==> d.id == if m.title.Some? then Normalized(m.title.value, k + 1) else Numbered(k + 1))
  }

  ghost predicate Cut(dialogues: seq<Dialogue>, msgs: seq<Msg>, opener: Opener) {
    && (forall k, j :: 0 <= k < |dialogues| && 0 <= j < |dialogues[k].lines| ==> CutAt(dialogues, msgs, opener, k, j))
    && (forall k :: 0 <= k < |dialogues| ==> dialogues[k].lines != [])
    && StartOf(dialogues, |dialogues|) == |msgs|
  }

  lemma {:induction false} StartOfPrefix(a: seq<Dialogue>, b: seq<Dialogue>, k: nat)
    requires k <= |a| && k <= |b| && forall i :: 0 <= i < k ==> a[i] == b[i]
    ensures StartOf(a, k) == StartOf(b, k)
  {
    if k > 0 {
      StartOfPrefix(a, b, k - 1);
    }
  }

  // A message that joins the last dialogue.
  lemma JoiningKeepsCut(done: seq<Dialogue>, d: Dialogue, msgs: seq<Msg>, m: Msg, opener: Opener, d': Dialogue)
    requires Cut(done + [d], msgs, opener) && !CallsForNew(m, d.lines, opener)
    requires d'.id == d.id && d'.lines == d.lines + [DialogueLine(m.speaker, m.text, |d.lines| + 1)]
    ensures Cut(done + [d'], msgs + [m], opener)
  {
    var before, after := done + [d], done + [d'];
    var n := |done|;
    forall k | 0 <= k <= n ensures StartOf(after, k) == StartOf(before, k) {
      StartOfPrefix(before, after, k);
    }
    assert StartOf(before, n + 1) == StartOf(before, n) + |d.lines|;
    forall k, j | 0 <= k < |after| && 0 <= j < |after[k].lines| ensures CutAt(after, msgs + [m], opener, k, j) {
      if k < n {
        assert before[k] == after[k] && (k > 0 ==> before[k - 1] == after[k - 1]);
        assert CutAt(before, msgs, opener, k, j);
      } else if j < |d.lines| {
        assert before[n] == d && after[n] == d' && (k > 0 ==> before[k - 1] == after[k - 1]);
        assert CutAt(before, msgs, opener, k, j);
        assert d'.lines[..j] == d.lines[..j];
      } else {
        assert before[n] == d && d.lines != [];
        assert d'.lines[..j] == d.lines;
      }
    }
    forall k | 0 <= k < |after| ensures after[k].lines != [] {
      assert k < n ==> before[k].lines != [];
    }
  }

  // A message that starts the next dialogue.
  lemma StartingKeepsCut(done: seq<Dialogue>, msgs: seq<Msg>, m: Msg, opener: Opener, d: Dialogue)
    requires Cut(done, msgs, opener) && (done != [] ==> CallsForNew(m, done[|done| - 1].lines, opener))
    requires d.lines == [DialogueLine(m.speaker, m.text, 1)]
    requires d.id == if m.title.Some? then Normalized(m.title.value, |done| + 1) else Numbered(|done| + 1)
    ensures Cut(done + [d], msgs + [m], opener)
  {
    var after := done + [d];
    var n := |done|;
    forall k | 0 <= k <= n ensures StartOf(after, k) == StartOf(done, k) {
      StartOfPrefix(done, after, k);
    }
    forall k, j | 0 <= k < |after| && 0 <= j < |after[k].lines| ensures CutAt(after, msgs + [m], opener, k, j) {
      if k < n {
        assert done[k] == after[k] && (k > 0 ==> done[k - 1] == after[k - 1]);
        assert CutAt(done, msgs, opener, k, j);
      }
    }
  }

  lemma {:induction false} GroupingCuts(msgs: seq<Msg>, opener: Opener)
    ensures Cut(Closed(GroupAll(msgs, opener)), msgs, opener)
    ensures var g := GroupAll(msgs, opener);
            g.id.n == |g.done| + 1 && (msgs == [] ==> g == Grouped([], Numbered(1), []))
  {
    if msgs != [] {
      var n := |msgs| - 1;
      var g, m := GroupAll(msgs[..n], opener), msgs[n];
      GroupingCuts(msgs[..n], opener);
      hide Cut, SpeakerRuns;
      assert msgs == msgs[..n] + [m];
      var after := GroupAll(msgs, opener);
      assert after == GroupOne(g, m, opener);
      if g.lines != [] && !CallsForNew(m, g.lines, opener) {
        JoiningKeepsCut(g.done, Payload(g.id, g.lines), msgs[..n], m, opener, Payload(after.id, after.lines));
      } else {
        StartingKeepsCut(Closed(g), msgs[..n], m, opener, Payload(after.id, after.lines));
      }
    }
  }

  // Dialogues begin where labels and openers say, and nowhere else, and are named accordingly.
  lemma DialoguesBeginAtLabels(lines: seq<InputLine>, opener: Opener)
    ensures Cut(Parsed(lines, opener), SaidIn(lines, |lines|), opener)
  {
    ParsingKeepsLines(lines, opener);
    GroupingCuts(Messages(lines), opener);
    hide Cut, Messages;
  }
}
