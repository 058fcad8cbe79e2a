// Splitting long dialogues into numbered parts (split_dialogues_for_llm).
module DialogueParts {
  import opened Basics
  import opened Dialogues

  // What compact_dialogue_for_llm keeps of a dialogue, and what a part carries.
  datatype Part = Part(id: Id, source: Id, partIndex: Option<nat>, partCount: Option<nat>, runOffset: nat,
                       runs: seq<Run>)

  function Compact(d: Dialogue): Part {
    Part(d.id, d.id, None, None, 0, d.runs)
  }

  function Chunks(runs: seq<Run>, size: nat): (chunks: seq<seq<Run>>)
    requires size > 0
    ensures chunks == [] <==> runs == []
  {
    if |runs| <= size then if runs == [] then [] else [runs]
    else [runs[..size]] + Chunks(runs[size..], size)
  }

  function NumberedPart(d: Dialogue, chunks: seq<seq<Run>>, size: nat, i: nat): Part
    requires i < |chunks|
  {
    Part(PartOf(d.id, i + 1), d.id, Some(i + 1), Some(|chunks|), i * size, chunks[i])
  }

  // The parts of one dialogue.
  function Parts(d: Dialogue, maxRuns: int): seq<Part> {
    if maxRuns <= 0 || |d.runs| <= maxRuns then [Compact(d)]
    else
      var chunks := Chunks(d.runs, maxRuns);
      seq(|chunks|, i requires 0 <= i < |chunks| => NumberedPart(d, chunks, maxRuns, i))
  }

  function AllParts(dialogues: seq<Dialogue>, maxRuns: int): seq<Part> {
    if dialogues == [] then []
    else AllParts(dialogues[..|dialogues| - 1], maxRuns) + Parts(dialogues[|dialogues| - 1], maxRuns)
  }

  function Rest(runs: seq<Run>, index: nat): seq<Run> {
    if index <= |runs| then runs[index..] else []
  }

  lemma NextChunk(runs: seq<Run>, size: nat, index: nat)
    requires size > 0 && index < |runs|
    ensures Chunks(Rest(runs, index), size) ==
            [runs[index..if index + size < |runs| then index + size else |runs|]] +
                Chunks(Rest(runs, index + size), size)
  {
    if index + size < |runs| {
      assert runs[index..][..size] == runs[index..index + size] && runs[index..][size..] == runs[index + size..];
    } else {
      assert runs[index..] == runs[index..|runs|] && Rest(runs, index + size) == [];
    }
  }

  // The slices runs[index : index + size] for index = 0, size, 2 * size, ...
  method Slices(runs: seq<Run>, size: nat) returns (parts: seq<seq<Run>>)
    requires size > 0
    ensures parts == Chunks(runs, size)
  {
    parts := [];
    var index := 0;
    assert Rest(runs, 0) == runs;
    hide Chunks, Rest;
    while index < |runs|
      invariant parts + Chunks(Rest(runs, index), size) == Chunks(runs, size)
    {
      NextChunk(runs, size, index);
      parts := parts + [runs[index..if index + size < |runs| then index + size else |runs|]];
      index := index + size;
    }
    NothingLeft(runs, size, index);
  }

  lemma NothingLeft(runs: seq<Run>, size: nat, index: nat)
    requires size > 0 && index >= |runs|
    ensures Chunks(Rest(runs, index), size) == []
  {
  }

  method NumberParts(d: Dialogue, size: nat) returns (parts: seq<Part>)
    requires 0 < size < |d.runs|
    ensures parts == Parts(d, size)
  {
    parts := [];
    var chunks := Slices(d.runs, size);
    for k := 0 to |chunks|
      invariant |parts| == k && forall i :: 0 <= i < k ==> parts[i] == NumberedPart(d, chunks, size, i)
    {
      parts := parts + [Part(PartOf(d.id, k + 1), d.id, Some(k + 1), Some(|chunks|), k * size, chunks[k])];
    }
  }

  lemma OnePart(d: Dialogue, maxRuns: int)
    requires maxRuns <= 0 || |d.runs| <= maxRuns
    ensures Parts(d, maxRuns) == [Compact(d)]
  {
  }

  // split_dialogues_for_llm
  method SplitDialoguesForLlm(dialogues: seq<Dialogue>, maxRuns: int) returns (result: seq<Part>)
    ensures result == AllParts(dialogues, maxRuns)
  {
    result := [];
    for i := 0 to |dialogues|
      invariant result == AllParts(dialogues[..i], maxRuns)
    {
      hide Chunks, Parts, Compact;
      assert dialogues[..i + 1][..i] == dialogues[..i];
      var d := dialogues[i];
      if maxRuns <= 0 || |d.runs| <= maxRuns {
        OnePart(d, maxRuns);
        result := result + [Compact(d)];
      } else {
        var parts := NumberParts(d, maxRuns);
        result := result + parts;
      }
    }
    assert dialogues[..|dialogues|] == dialogues;
  }

  function RunsOf(parts: seq<Part>): seq<Run> {
    if parts == [] then [] else RunsOf(parts[..|parts| - 1]) + parts[|parts| - 1].runs
  }

  lemma RunsSnoc(parts: seq<Part>, p: Part)
    ensures RunsOf(parts + [p]) == RunsOf(parts) + p.runs
  {
    assert (parts + [p])[..|parts + [p]| - 1] == parts;
  }

  function Concat(chunks: seq<seq<Run>>): seq<Run> {
    if chunks == [] then [] else chunks[0] + Concat(chunks[1..])
  }

  // Full slices up to the last one, which is not empty; together they are the runs again.
  lemma {:induction false} ChunksShape(runs: seq<Run>, size: nat)
    requires size > 0
    ensures var chunks := Chunks(runs, size);
            && Concat(chunks) == runs
            && (forall i :: 0 <= i < |chunks| - 1 ==> |chunks[i]| == size)
            && (forall i :: 0 <= i < |chunks| ==> 0 < |chunks[i]| <= size)
  {
    if |runs| > size {
      ChunksShape(runs[size..], size);
      assert Chunks(runs, size)[1..] == Chunks(runs[size..], size);
      assert runs == runs[..size] + runs[size..];
    } else if runs != [] {
      assert Concat([runs]) == runs + Concat([]);
    }
  }

  lemma {:induction false} ConcatSnoc(chunks: seq<seq<Run>>, c: seq<Run>)
    ensures Concat(chunks + [c]) == Concat(chunks) + c
  {
    if chunks == [] {
      assert Concat([c]) == c + Concat([]);
    } else {
      ConcatSnoc(chunks[1..], c);
      assert (chunks + [c])[1..] == chunks[1..] + [c];
    }
  }

  lemma {:induction false} ConcatSize(chunks: seq<seq<Run>>, size: nat)
    requires forall i :: 0 <= i < |chunks| ==> |chunks[i]| == size
    ensures |Concat(chunks)| == |chunks| * size
  {
    if chunks != [] {
      ConcatSize(chunks[1..], size);
      assert (|chunks| - 1) * size + size == |chunks| * size;
    }
  }

  lemma {:induction false} RunsOfChunks(parts: seq<Part>, chunks: seq<seq<Run>>)
    requires |parts| == |chunks| && forall i :: 0 <= i < |parts| ==> parts[i].runs == chunks[i]
    ensures RunsOf(parts) == Concat(chunks)
  {
    if parts != [] {
      var n := |parts| - 1;
      RunsOfChunks(parts[..n], chunks[..n]);
      ConcatSnoc(chunks[..n], chunks[n]);
      assert chunks == chunks[..n] + [chunks[n]];
      hide Concat;
    }
  }

  lemma SplitParts(d: Dialogue, maxRuns: nat)
    requires 0 < maxRuns < |d.runs|
    ensures var parts, chunks := Parts(d, maxRuns), Chunks(d.runs, maxRuns);
            |parts| == |chunks| && forall k :: 0 <= k < |parts| ==> parts[k] == NumberedPart(d, chunks, maxRuns, k)
  {
    hide Chunks;
  }

  lemma ManyParts(d: Dialogue, maxRuns: nat)
    requires 0 < maxRuns < |d.runs|
    ensures |Chunks(d.runs, maxRuns)| > 1
  {
  }

  // A part starts where the parts before it end.
  lemma OffsetIsSizeBefore(d: Dialogue, maxRuns: nat, k: nat)
    requires 0 < maxRuns < |d.runs| && k < |Parts(d, maxRuns)|
    ensures Parts(d, maxRuns)[k].runOffset == |RunsOf(Parts(d, maxRuns)[..k])|
  {
    SplitParts(d, maxRuns);
    hide Parts, Chunks, Concat, RunsOf;
    var parts, chunks := Parts(d, maxRuns), Chunks(d.runs, maxRuns);
    ChunksShape(d.runs, maxRuns);
    RunsOfChunks(parts[..k], chunks[..k]);
    ConcatSize(chunks[..k], maxRuns);
  }

  lemma WholePart(d: Dialogue)
    ensures RunsOf([Compact(d)]) == d.runs && RunsOf([Compact(d)][..0]) == []
  {
    assert [Compact(d)][..0] == [] && RunsOf([Compact(d)]) == RunsOf([]) + d.runs;
  }

  // The parts of a dialogue put together are its runs; each part starts where the parts before it
  // end; all but the last are as large as the limit allows; and parts are numbered from one to their
  // count. A dialogue that is not split keeps its own id and carries no number.
  lemma PartsOfDialogue(d: Dialogue, maxRuns: int)
    ensures var parts := Parts(d, maxRuns);
            && RunsOf(parts) == d.runs
            && (forall k :: 0 <= k < |parts| ==> parts[k].runOffset == |RunsOf(parts[..k])| && parts[k].source == d.id)
            && (maxRuns > 0 ==> forall k :: 0 <= k < |parts| ==> |parts[k].runs| <= maxRuns)
            && (|parts| > 1 ==> forall k :: 0 <= k < |parts| ==>
                  && parts[k].partIndex == Some(k + 1) && parts[k].partCount == Some(|parts|)
                  && parts[k].id == PartOf(d.id, k + 1) && parts[k].runs != []
                  && (k < |parts| - 1 ==> |parts[k].runs| == maxRuns))
            && (|parts| > 1 <==> 0 < maxRuns < |d.runs|)
            && (|parts| <= 1 ==>
                  |parts| == 1 && parts[0].id == d.id && parts[0].partIndex.None? && parts[0].partCount.None?)
  {
    if maxRuns <= 0 || |d.runs| <= maxRuns {
      WholePart(d);
      hide RunsOf;
    } else {
      hide Parts, Chunks, Concat, RunsOf;
      var parts, chunks := Parts(d, maxRuns), Chunks(d.runs, maxRuns);
      SplitParts(d, maxRuns);
      ManyParts(d, maxRuns);
      ChunksShape(d.runs, maxRuns);
      RunsOfChunks(parts, chunks);
      forall k | 0 <= k < |parts| ensures parts[k].runOffset == |RunsOf(parts[..k])| {
        OffsetIsSizeBefore(d, maxRuns, k);
      }
    }
  }

  // Splitting loses and reorders nothing.
  lemma {:induction false} SplittingKeepsRuns(dialogues: seq<Dialogue>, maxRuns: int)
    ensures RunsOf(AllParts(dialogues, maxRuns)) == AllRuns(dialogues)
  {
    if dialogues != [] {
      var n := |dialogues| - 1;
      SplittingKeepsRuns(dialogues[..n], maxRuns);
      PartsOfDialogue(dialogues[n], maxRuns);
      RunsOfBoth(AllParts(dialogues[..n], maxRuns), Parts(dialogues[n], maxRuns));
    }
  }

  function AllRuns(dialogues: seq<Dialogue>): seq<Run> {
    if dialogues == [] then [] else AllRuns(dialogues[..|dialogues| - 1]) + dialogues[|dialogues| - 1].runs
  }

  lemma NoRuns()
    ensures RunsOf([]) == []
  {
  }

  lemma {:induction false} RunsOfBoth(a: seq<Part>, b: seq<Part>)
    ensures RunsOf(a + b) == RunsOf(a) + RunsOf(b)
  {
    hide RunsOf;
    if b == [] {
      assert a + b == a;
      NoRuns();
      assert RunsOf(a) + [] == RunsOf(a);
    } else {
      var init, last := b[..|b| - 1], b[|b| - 1];
      RunsOfBoth(a, init);
      RunsSnoc(a + init, last);
      RunsSnoc(init, last);
      assert a + b == a + init + [last] && b == init + [last];
      Assoc(RunsOf(a), RunsOf(init), last.runs);
    }
  }

  lemma Assoc(a: seq<Run>, b: seq<Run>, c: seq<Run>)
    ensures (a + b) + c == a + (b + c)
  {
  }
}
