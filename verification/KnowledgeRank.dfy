// Merging two result lists of knowledge cards (merge_and_rerank, app/services/brain_v2/knowledge_cards.py).
module KnowledgeRank {
  import opened Basics

  // Scores are reals; `source` stands for everything else a retrieved card carries.
  datatype Card = Card(key: string, score: real, source: nat)

  // Where a key stands in the dictionary, which keeps the order of first insertion.
  function Position(merged: seq<Card>, key: string): (r: Option<nat>)
    ensures r.Some? ==> r.value < |merged| && merged[r.value].key == key
    ensures r.None? ==> forall i :: 0 <= i < |merged| ==> merged[i].key != key
  {
    if merged == [] then None
    else if merged[|merged| - 1].key == key then Some(|merged| - 1)
    else Position(merged[..|merged| - 1], key)
  }

  function MergeOne(merged: seq<Card>, c: Card): seq<Card> {
    match Position(merged, c.key)
    case None => merged + [c]
    case Some(i) => if c.score > merged[i].score then merged[i := c] else merged
  }

  function Merged(cards: seq<Card>): seq<Card> {
    if cards == [] then [] else MergeOne(Merged(cards[..|cards| - 1]), cards[|cards| - 1])
  }

  // sorted(..., key=score, reverse=True): descending, and stable.
  function InsertDescending(ordered: seq<Card>, c: Card): seq<Card> {
    if ordered == [] || ordered[|ordered| - 1].score >= c.score then ordered + [c]
    else InsertDescending(ordered[..|ordered| - 1], c) + [ordered[|ordered| - 1]]
  }

  function SortedDescending(cards: seq<Card>): seq<Card> {
    if cards == [] then [] else InsertDescending(SortedDescending(cards[..|cards| - 1]), cards[|cards| - 1])
  }

  // How many of n elements the slice [:top] keeps; a negative top drops elements from the end.
  function Kept(n: nat, top: int): (k: nat)
    ensures k <= n
  {
    if top >= 0 then if top < n then top else n
    else if n + top > 0 then n + top else 0
  }

  function Reranked(cards: seq<Card>, topK: int): seq<Card> {
    var ordered := SortedDescending(Merged(cards));
    ordered[..Kept(|ordered|, topK)]
  }

  method MergeAndRerank(cards: seq<Card>, topK: int) returns (r: seq<Card>)
    ensures r == Reranked(cards, topK)
  {
    var merged := [];
    for n := 0 to |cards|
      invariant merged == Merged(cards[..n])
    {
      assert cards[..n + 1][..n] == cards[..n];
      var card := cards[n];
      var current := Position(merged, card.key);
      if current.None? {
        merged := merged + [card];
      } else if card.score > merged[current.value].score {
        merged := merged[current.value := card];
      }
    }
    assert cards[..|cards|] == cards;
    var ordered := SortedDescending(merged);
    r := ordered[..Kept(|ordered|, topK)];
  }

  // ---- Merging ----

  // m is the earliest of the best cards with its key.
  ghost predicate FirstBest(cards: seq<Card>, m: Card) {
    && (exists i :: 0 <= i < |cards| && cards[i] == m &&
          forall k :: 0 <= k < i ==> cards[k].key == m.key ==> cards[k].score < m.score)
    && (forall k :: 0 <= k < |cards| ==> cards[k].key == m.key ==> cards[k].score <= m.score)
  }

  ghost predicate DistinctKeys(cards: seq<Card>) {
    forall i, k :: 0 <= i < k < |cards| ==> cards[i].key != cards[k].key
  }

  predicate HasKey(cards: seq<Card>, key: string) {
    exists i :: 0 <= i < |cards| && cards[i].key == key
  }

  ghost predicate MergedWell(cards: seq<Card>, merged: seq<Card>) {
    && DistinctKeys(merged)
    && (forall i :: 0 <= i < |merged| ==> FirstBest(cards, merged[i]))
    && (forall k :: 0 <= k < |cards| ==> HasKey(merged, cards[k].key))
  }

  lemma FirstBestStays(cards: seq<Card>, c: Card, m: Card)
    requires FirstBest(cards, m) && (c.key == m.key ==> c.score <= m.score)
    ensures FirstBest(cards + [c], m)
  {
    var i :| 0 <= i < |cards| && cards[i] == m &&
             forall k :: 0 <= k < i ==> cards[k].key == m.key ==> cards[k].score < m.score;
    assert (cards + [c])[i] == m;
  }

  lemma FirstBestIsNew(cards: seq<Card>, c: Card)
    requires forall k :: 0 <= k < |cards| ==> cards[k].key == c.key ==> cards[k].score < c.score
    ensures FirstBest(cards + [c], c)
  {
    assert (cards + [c])[|cards|] == c;
  }

  lemma MergeOneKeys(merged: seq<Card>, c: Card)
    requires DistinctKeys(merged)
    ensures DistinctKeys(MergeOne(merged, c))
    ensures HasKey(MergeOne(merged, c), c.key)
    ensures forall key :: HasKey(merged, key) ==> HasKey(MergeOne(merged, c), key)
  {
    var after := MergeOne(merged, c);
    var at := Position(merged, c.key);
    hide Position;
    assert after[if at.Some? then at.value else |merged|].key == c.key;
    forall key | HasKey(merged, key) ensures HasKey(after, key) {
      var i :| 0 <= i < |merged| && merged[i].key == key;
      assert after[i].key == key;
    }
  }

  lemma FirstBestBeaten(cards: seq<Card>, m: Card, c: Card)
    requires FirstBest(cards, m) && c.key == m.key && c.score > m.score
    ensures FirstBest(cards + [c], c)
  {
    FirstBestIsNew(cards, c);
  }

  lemma FirstBestOfNewKey(cards: seq<Card>, merged: seq<Card>, c: Card)
    requires MergedWell(cards, merged) && Position(merged, c.key).None?
    ensures FirstBest(cards + [c], c)
  {
    forall k | 0 <= k < |cards| ensures cards[k].key != c.key {
      assert HasKey(merged, cards[k].key);
    }
    FirstBestIsNew(cards, c);
  }

  lemma MergeOneBest(cards: seq<Card>, merged: seq<Card>, c: Card, i: nat)
    requires MergedWell(cards, merged) && i < |MergeOne(merged, c)|
    ensures FirstBest(cards + [c], MergeOne(merged, c)[i])
  {
    hide FirstBest, HasKey, Position;
    var at := Position(merged, c.key);
    if at.None? && i == |merged| {
      FirstBestOfNewKey(cards, merged, c);
    } else {
      assert FirstBest(cards, merged[i]);
      if at == Some(i) && c.score > merged[i].score {
        FirstBestBeaten(cards, merged[i], c);
      } else {
        FirstBestStays(cards, c, merged[i]);
      }
    }
  }

  lemma MergeOneKeeps(cards: seq<Card>, merged: seq<Card>, c: Card)
    requires MergedWell(cards, merged)
    ensures MergedWell(cards + [c], MergeOne(merged, c))
  {
    MergeOneKeys(merged, c);
    forall i | 0 <= i < |MergeOne(merged, c)| ensures FirstBest(cards + [c], MergeOne(merged, c)[i]) {
      MergeOneBest(cards, merged, c, i);
    }
    hide MergeOne, FirstBest, HasKey, DistinctKeys;
  }

  // One card for every key, the earliest of the best.
  lemma {:induction false} MergingKeepsTheBest(cards: seq<Card>)
    ensures MergedWell(cards, Merged(cards))
  {
    if cards != [] {
      var n := |cards| - 1;
      MergingKeepsTheBest(cards[..n]);
      MergeOneKeeps(cards[..n], Merged(cards[..n]), cards[n]);
      assert cards == cards[..n] + [cards[n]];
    }
  }

  // ---- Sorting ----

  ghost predicate Descending(cards: seq<Card>) {
    forall i, k :: 0 <= i < k < |cards| ==> cards[i].score >= cards[k].score
  }

  // The cards of one score, in order.
  function OfScore(cards: seq<Card>, score: real): seq<Card> {
    if cards == [] then []
    else OfScore(cards[..|cards| - 1], score) + if cards[|cards| - 1].score == score then [cards[|cards| - 1]] else []
  }

  lemma OfScoreSnoc(cards: seq<Card>, c: Card, score: real)
    ensures OfScore(cards + [c], score) == OfScore(cards, score) + if c.score == score then [c] else []
  {
    assert (cards + [c])[..|cards + [c]| - 1] == cards;
  }

  lemma {:induction false} InsertKeepsOrder(ordered: seq<Card>, c: Card)
    requires Descending(ordered)
    ensures Descending(InsertDescending(ordered, c))
    ensures multiset(InsertDescending(ordered, c)) == multiset(ordered) + multiset{c}
  {
    if ordered != [] && ordered[|ordered| - 1].score < c.score {
      var init, last := ordered[..|ordered| - 1], ordered[|ordered| - 1];
      InsertKeepsOrder(init, c);
      assert ordered == init + [last];
      var inner := InsertDescending(init, c);
      hide InsertDescending;
      forall i | 0 <= i < |inner| ensures inner[i].score >= last.score {
        assert inner[i] in multiset(inner);
        if inner[i] != c {
          assert inner[i] in init;
        }
      }
    }
  }

  lemma {:induction false} InsertIsStable(ordered: seq<Card>, c: Card, score: real)
    ensures OfScore(InsertDescending(ordered, c), score) ==
            OfScore(ordered, score) + if c.score == score then [c] else []
  {
    hide OfScore;
    if ordered != [] && ordered[|ordered| - 1].score < c.score {
      var init, last := ordered[..|ordered| - 1], ordered[|ordered| - 1];
      var inner := InsertDescending(init, c);
      InsertIsStable(init, c, score);
      OfScoreSnoc(inner, last, score);
      OfScoreSnoc(init, last, score);
      assert ordered == init + [last];
    } else {
      OfScoreSnoc(ordered, c, score);
    }
  }

  // Sorting is a stable rearrangement in descending order.
  lemma {:induction false} SortingIsStable(cards: seq<Card>)
    ensures Descending(SortedDescending(cards)) && multiset(SortedDescending(cards)) == multiset(cards)
    ensures forall score :: OfScore(SortedDescending(cards), score) == OfScore(cards, score)
  {
    if cards != [] {
      hide InsertDescending, Descending, OfScore;
      var n := |cards| - 1;
      var before := SortedDescending(cards[..n]);
      assert SortedDescending(cards) == InsertDescending(before, cards[n]);
      assert cards == cards[..n] + [cards[n]];
      hide SortedDescending;
      SortingIsStable(cards[..n]);
      InsertKeepsOrder(before, cards[n]);
      forall score ensures OfScore(SortedDescending(cards), score) == OfScore(cards, score) {
        InsertIsStable(before, cards[n], score);
        OfScoreSnoc(cards[..n], cards[n], score);
      }
    }
  }

  // ---- The result ----

  // How many keys there are, counting each once.
  function KeyCount(cards: seq<Card>): nat {
    |Merged(cards)|
  }

  lemma SortedKeepsDistinct(cards: seq<Card>)
    requires DistinctKeys(cards)
    ensures DistinctKeys(SortedDescending(cards)) && |SortedDescending(cards)| == |cards|
  {
    SortingIsStable(cards);
    var ordered := SortedDescending(cards);
    assert |multiset(ordered)| == |multiset(cards)|;
    hide SortedDescending, OfScore;
    forall i, k | 0 <= i < k < |ordered| ensures ordered[i].key != ordered[k].key {
      if ordered[i].key == ordered[k].key {
        TwoPlaces(ordered, i, k);
        assert ordered[i] in multiset(cards) && ordered[k] in multiset(cards);
        var a :| 0 <= a < |cards| && cards[a] == ordered[i];
        var b :| 0 <= b < |cards| && cards[b] == ordered[k];
        assert a == b;
        OnePlace(cards, a);
      }
    }
  }

  lemma TwoPlaces(cards: seq<Card>, i: nat, k: nat)
    requires i < k < |cards|
    ensures cards[i] == cards[k] ==> multiset(cards)[cards[i]] >= 2
  {
    assert cards == cards[..k] + cards[k..];
    assert cards[..k][i] in cards[..k] && cards[k..][0] in cards[k..];
  }

  lemma {:induction false} OnePlace(cards: seq<Card>, a: nat)
    requires DistinctKeys(cards) && a < |cards|
    ensures multiset(cards)[cards[a]] == 1
  {
    assert cards == cards[..a] + [cards[a]] + cards[a + 1..];
    assert cards[a] !in cards[..a] && cards[a] !in cards[a + 1..];
  }

  // Distinct keys in descending order, each with the earliest of its best cards; as many as top_k
  // allows; and no card of a key left out scores above one kept.
  lemma RerankingKeepsTheBest(cards: seq<Card>, topK: int)
    ensures var r := Reranked(cards, topK);
            && DistinctKeys(r) && Descending(r)
            && (forall i :: 0 <= i < |r| ==> FirstBest(cards, r[i]))
            && |r| == Kept(KeyCount(cards), topK)
            && (forall i, k :: 0 <= i < |r| && 0 <= k < |cards| && !HasKey(r, cards[k].key) ==>
                  cards[k].score <= r[i].score)
  {
    hide *;
    var ordered := SortedDescending(Merged(cards));
    OrderIsBest(cards);
    SliceOf(cards, topK);
    PrefixKeeps(ordered, |Reranked(cards, topK)|);
    PrefixIsBest(cards, ordered, |Reranked(cards, topK)|);
    forall k | 0 <= k < |cards| && !HasKey(Reranked(cards, topK), cards[k].key)
      ensures forall i :: 0 <= i < |Reranked(cards, topK)| ==> cards[k].score <= Reranked(cards, topK)[i].score
    {
      LeftOut(cards, Merged(cards), ordered, |Reranked(cards, topK)|, k);
    }
  }

  lemma OrderIsBest(cards: seq<Card>)
    ensures var ordered := SortedDescending(Merged(cards));
            && MergedWell(cards, Merged(cards))
            && multiset(ordered) == multiset(Merged(cards)) && |ordered| == KeyCount(cards)
            && DistinctKeys(ordered) && Descending(ordered)
            && forall i :: 0 <= i < |ordered| ==> FirstBest(cards, ordered[i])
  {
    var merged := Merged(cards);
    var ordered := SortedDescending(merged);
    MergingKeepsTheBest(cards);
    SortingIsStable(merged);
    SortedKeepsDistinct(merged);
    hide Merged, SortedDescending, OfScore, HasKey, FirstBest, DistinctKeys, Descending;
    forall i | 0 <= i < |ordered| ensures FirstBest(cards, ordered[i]) {
      assert ordered[i] in multiset(merged);
    }
  }

  lemma PrefixKeeps(ordered: seq<Card>, n: nat)
    requires n <= |ordered| && DistinctKeys(ordered) && Descending(ordered)
    ensures DistinctKeys(ordered[..n]) && Descending(ordered[..n])
  {
  }

  lemma PrefixIsBest(cards: seq<Card>, ordered: seq<Card>, n: nat)
    requires n <= |ordered| && forall i :: 0 <= i < |ordered| ==> FirstBest(cards, ordered[i])
    ensures forall i :: 0 <= i < n ==> FirstBest(cards, ordered[..n][i])
  {
  }

  lemma SliceOf(cards: seq<Card>, topK: int)
    ensures var ordered := SortedDescending(Merged(cards));
            var r := Reranked(cards, topK);
            |r| == Kept(|ordered|, topK) && |r| <= |ordered| && r == ordered[..|r|]
  {
  }

  lemma PrefixKeys(ordered: seq<Card>, n: nat, p: nat)
    requires n <= |ordered| && p < |ordered|
    ensures p < n ==> HasKey(ordered[..n], ordered[p].key)
  {
    if p < n {
      assert ordered[..n][p].key == ordered[p].key;
    }
  }

  // The order holds a card for every key, none of the others of that key scoring higher.
  lemma PlaceOfKey(cards: seq<Card>, merged: seq<Card>, ordered: seq<Card>, k: nat) returns (p: nat)
    requires MergedWell(cards, merged) && multiset(ordered) == multiset(merged) && k < |cards|
    ensures p < |ordered| && ordered[p].key == cards[k].key && cards[k].score <= ordered[p].score
  {
    hide DistinctKeys;
    assert HasKey(merged, cards[k].key);
    var j :| 0 <= j < |merged| && merged[j].key == cards[k].key;
    assert FirstBest(cards, merged[j]);
    hide FirstBest, HasKey, MergedWell;
    assert merged[j] in multiset(merged);
    assert merged[j] in ordered;
    p :| 0 <= p < |ordered| && ordered[p] == merged[j];
  }

  // A card whose key is not among the first n of the order scores no higher than any of them.
  lemma LeftOut(cards: seq<Card>, merged: seq<Card>, ordered: seq<Card>, n: nat, k: nat)
    requires MergedWell(cards, merged) && multiset(ordered) == multiset(merged) && Descending(ordered)
    requires n <= |ordered| && k < |cards| && !HasKey(ordered[..n], cards[k].key)
    ensures forall i :: 0 <= i < n ==> cards[k].score <= ordered[..n][i].score
  {
    hide MergedWell, HasKey;
    var p := PlaceOfKey(cards, merged, ordered, k);
    PrefixKeys(ordered, n, p);
  }

  // ---- How many are kept ----

  function Keys(cards: seq<Card>): set<string> {
    set i | 0 <= i < |cards| :: cards[i].key
  }

  lemma {:induction false} DistinctCount(cards: seq<Card>)
    requires DistinctKeys(cards)
    ensures |Keys(cards)| == |cards|
  {
    if cards != [] {
      var n := |cards| - 1;
      DistinctCount(cards[..n]);
      assert Keys(cards) == Keys(cards[..n]) + {cards[n].key};
    }
  }

  // The result keeps top_k cards, or one for every key if there are fewer keys; a negative top_k takes
  // that many off the end instead.
  lemma HowManyAreKept(cards: seq<Card>, topK: int)
    ensures var n, kept := |Keys(cards)|, |Reranked(cards, topK)|;
            && (topK >= 0 ==> kept <= topK && kept <= n && (kept == topK || kept == n))
            && (topK < 0 ==> kept == if n >= -topK then n + topK else 0)
  {
    RerankingKeepsTheBest(cards, topK);
    MergingKeepsTheBest(cards);
    DistinctCount(Merged(cards));
    assert Keys(Merged(cards)) == Keys(cards) by {
      SameKeys(cards, Merged(cards));
    }
    hide Merged, Reranked;
  }

  lemma SameKeys(cards: seq<Card>, merged: seq<Card>)
    requires MergedWell(cards, merged)
    ensures Keys(merged) == Keys(cards)
  {
    forall key | key in Keys(merged) ensures key in Keys(cards) {
      var i :| 0 <= i < |merged| && merged[i].key == key;
      assert FirstBest(cards, merged[i]);
    }
    forall key | key in Keys(cards) ensures key in Keys(merged) {
      var i :| 0 <= i < |cards| && cards[i].key == key;
      assert HasKey(merged, cards[i].key);
    }
  }

  // ---- Ties ----

  // The first card with key a comes before the first with key b, or there is none with key b.
  ghost predicate AppearsBefore(cards: seq<Card>, a: string, b: string) {
    exists p :: 0 <= p < |cards| && cards[p].key == a && forall q :: 0 <= q <= p ==> cards[q].key != b
  }

  lemma AppearsBeforeStays(cards: seq<Card>, c: Card, a: string, b: string)
    requires AppearsBefore(cards, a, b)
    ensures AppearsBefore(cards + [c], a, b)
  {
    var p :| 0 <= p < |cards| && cards[p].key == a && forall q :: 0 <= q <= p ==> cards[q].key != b;
    assert (cards + [c])[p].key == a && forall q :: 0 <= q <= p ==> (cards + [c])[q] == cards[q];
  }

  ghost predicate InOrder(cards: seq<Card>, merged: seq<Card>) {
    forall i, k :: 0 <= i < k < |merged| ==> AppearsBefore(cards, merged[i].key, merged[k].key)
  }

  lemma MergeOneInOrder(cards: seq<Card>, merged: seq<Card>, c: Card)
    requires MergedWell(cards, merged) && InOrder(cards, merged)
    ensures InOrder(cards + [c], MergeOne(merged, c))
  {
    var after := MergeOne(merged, c);
    hide MergedWell, AppearsBefore, Position;
    forall i, k | 0 <= i < k < |after| ensures AppearsBefore(cards + [c], after[i].key, after[k].key) {
      if k < |merged| {
        AppearsBeforeStays(cards, c, merged[i].key, merged[k].key);
      } else {
        NewKeyIsLast(cards, merged, c, i);
      }
    }
  }

  // The dictionary lists its keys in the order they first appear.
  lemma {:induction false} MergingKeepsOrder(cards: seq<Card>)
    ensures InOrder(cards, Merged(cards))
  {
    if cards != [] {
      hide InOrder, MergedWell, MergeOne;
      var n := |cards| - 1;
      assert cards == cards[..n] + [cards[n]];
      MergingKeepsOrder(cards[..n]);
      MergingKeepsTheBest(cards[..n]);
      MergeOneInOrder(cards[..n], Merged(cards[..n]), cards[n]);
    }
  }

  lemma NewKeyIsLast(cards: seq<Card>, merged: seq<Card>, c: Card, i: nat)
    requires MergedWell(cards, merged) && i < |merged| && Position(merged, c.key).None?
    ensures AppearsBefore(cards + [c], merged[i].key, c.key)
  {
    assert FirstBest(cards, merged[i]);
    var p :| 0 <= p < |cards| && cards[p] == merged[i];
    forall q | 0 <= q < |cards| ensures cards[q].key != c.key {
      assert HasKey(merged, cards[q].key);
    }
    assert (cards + [c])[p].key == merged[i].key;
  }

  // Two cards of one score stand in the same order among all the cards of that score.
  lemma {:induction false} OrderOfScore(cards: seq<Card>, i: nat, k: nat) returns (x: nat, y: nat)
    requires i < k < |cards| && cards[i].score == cards[k].score
    ensures x < y < |OfScore(cards, cards[k].score)|
    ensures OfScore(cards, cards[k].score)[x] == cards[i] && OfScore(cards, cards[k].score)[y] == cards[k]
  {
    var n := |cards| - 1;
    if k < n {
      x, y := OrderOfScore(cards[..n], i, k);
    } else {
      x := PlaceOfScore(cards[..n], i);
      y := |OfScore(cards[..n], cards[k].score)|;
    }
  }

  lemma {:induction false} PlaceOfScore(cards: seq<Card>, i: nat) returns (x: nat)
    requires i < |cards|
    ensures x < |OfScore(cards, cards[i].score)| && OfScore(cards, cards[i].score)[x] == cards[i]
  {
    var n := |cards| - 1;
    if i < n {
      x := PlaceOfScore(cards[..n], i);
    } else {
      x := |OfScore(cards[..n], cards[i].score)|;
    }
  }

  lemma {:induction false} PlacesInOrder(cards: seq<Card>, score: real, x: nat, y: nat) returns (i: nat, k: nat)
    requires x < y < |OfScore(cards, score)|
    ensures i < k < |cards| && cards[i] == OfScore(cards, score)[x] && cards[k] == OfScore(cards, score)[y]
  {
    var n := |cards| - 1;
    if y < |OfScore(cards[..n], score)| {
      i, k := PlacesInOrder(cards[..n], score, x, y);
    } else {
      i := PlaceOf(cards[..n], score, x);
      k := n;
    }
  }

  lemma {:induction false} PlaceOf(cards: seq<Card>, score: real, x: nat) returns (i: nat)
    requires x < |OfScore(cards, score)|
    ensures i < |cards| && cards[i] == OfScore(cards, score)[x]
  {
    var n := |cards| - 1;
    if x < |OfScore(cards[..n], score)| {
      i := PlaceOf(cards[..n], score, x);
    } else {
      i := n;
    }
  }

  // Of two cards with one score the one whose key appeared first comes first.
  lemma TiesKeepOrder(cards: seq<Card>, topK: int, i: nat, k: nat)
    requires i < k < |Reranked(cards, topK)| && Reranked(cards, topK)[i].score == Reranked(cards, topK)[k].score
    ensures AppearsBefore(cards, Reranked(cards, topK)[i].key, Reranked(cards, topK)[k].key)
  {
    var merged := Merged(cards);
    var ordered := SortedDescending(merged);
    SortingIsStable(merged);
    MergingKeepsOrder(cards);
    SliceOf(cards, topK);
    hide Merged, SortedDescending, OfScore, AppearsBefore, Kept;
    var x, y := OrderOfScore(ordered, i, k);
    var a, b := PlacesInOrder(merged, ordered[k].score, x, y);
    assert AppearsBefore(cards, merged[a].key, merged[b].key);
  }
}
