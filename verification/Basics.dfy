// Small shared vocabulary: optional values, Python truthiness and substring search.
module Basics {
  datatype Option<+T> = None | Some(value: T)

  // Python's bool(x) for an optional string column.
  predicate Truthy(s: Option<string>) {
    s.Some? && s.value != ""
  }

  // `profile.get(field) is True`
  predicate IsTrue(b: Option<bool>) {
    b == Some(true)
  }

  // `part in whole`, for strings.
  ghost predicate Contains(whole: string, part: string) {
    exists i :: OccursAt(whole, part, i)
  }

  predicate OccursAt(whole: string, part: string, i: nat) {
    i + |part| <= |whole| && whole[i..i + |part|] == part
  }

  // The same test as executable code tries it: every offset from `from` on.
  predicate FoundFrom(whole: string, part: string, from: nat)
    ensures FoundFrom(whole, part, from) <==> exists i: nat :: i >= from && OccursAt(whole, part, i)
    decreases |whole| - from
  {
    if from + |part| > |whole| then
      assert forall i: nat :: i >= from ==> !OccursAt(whole, part, i);
      false
    else
      OccursAt(whole, part, from) || FoundFrom(whole, part, from + 1)
  }

  predicate Has(whole: string, part: string)
    ensures Has(whole, part) <==> Contains(whole, part)
  {
    FoundFrom(whole, part, 0)
  }

  lemma ContainsInner(pre: string, part: string, post: string)
    ensures Contains(pre + part + post, part)
  {
    assert (pre + part + post)[|pre|..|pre| + |part|] == part;
    assert OccursAt(pre + part + post, part, |pre|);
  }

  predicate IsSpace(ch: char) {
    ch in {' ', '\t', '\n', '\r'}
  }

  function StripLeft(s: string): string {
    if s != "" && IsSpace(s[0]) then StripLeft(s[1..]) else s
  }

  function StripRight(s: string): string {
    if s != "" && IsSpace(s[|s| - 1]) then StripRight(s[..|s| - 1]) else s
  }

  function Strip(s: string): string {
    StripLeft(StripRight(s))
  }

  predicate OnlyBlanks(s: string) {
    forall i :: 0 <= i < |s| ==> s[i] in {' ', '\t', '\n', '\r'}
  }

  lemma {:induction false} StripsRight(s: string) returns (post: string)
    ensures s == StripRight(s) + post && OnlyBlanks(post)
    ensures StripRight(s) != "" ==> StripRight(s)[|StripRight(s)| - 1] !in {' ', '\t', '\n', '\r'}
  {
    if s != "" && IsSpace(s[|s| - 1]) {
      post := StripsRight(s[..|s| - 1]);
      post := post + [s[|s| - 1]];
    } else {
      post := "";
    }
  }

  lemma {:induction false} StripsLeft(s: string) returns (pre: string)
    ensures s == pre + StripLeft(s) && OnlyBlanks(pre)
    ensures StripLeft(s) != "" ==> StripLeft(s)[0] !in {' ', '\t', '\n', '\r'}
  {
    if s != "" && IsSpace(s[0]) {
      pre := StripsLeft(s[1..]);
      pre := [s[0]] + pre;
    } else {
      pre := "";
    }
  }

  // Stripping takes blanks off both ends and nothing else.
  lemma StripsBlanksOnly(s: string) returns (pre: string, post: string)
    ensures s == pre + Strip(s) + post && OnlyBlanks(pre) && OnlyBlanks(post)
    ensures Strip(s) != "" ==>
              Strip(s)[0] !in {' ', '\t', '\n', '\r'} && Strip(s)[|Strip(s)| - 1] !in {' ', '\t', '\n', '\r'}
  {
    post := StripsRight(s);
    pre := StripsLeft(StripRight(s));
  }
}
