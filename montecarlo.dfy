/** The C++ port of the ranker (tools/montecarlo_cpp/Montecarlo.cpp): `get_rcounts`,
    `calc_score`, `eval_best_hand` and the card-set operations of `Deck`. A hand is a
    `std::set<std::string>`, so its cards are distinct and unordered. */
module Montecarlo {
  import opened Common
  import opened Cards
  import opened Tuples
  import opened HandEvaluator
  import opened MontecarloH

  predicate AllCardsIn(cards: set<string>) {
    forall c :: c in cards ==> IsCard(c)
  }

  /** The cards of the set with rank r. */
  function Ranked(cards: set<string>, r: int): set<string> {
    set c | c in cards && IsCard(c) && Rank(c) == r
  }

  /** The cards of the set with rank below r. */
  function RankedBelow(cards: set<string>, r: int): set<string> {
    set c | c in cards && IsCard(c) && Rank(c) < r
  }

  // ---------------------------------------------------------------------------
  // get_rcounts

  /** The (count, index) pairs for the indices 0..n-1 with a positive count, in ascending
      index: what a counting loop over 0..n-1 has pushed after n rounds. */
  function PairsTo(counts: seq<int>, n: nat): seq<(int, int)>
    requires n <= |counts|
  {
    if n == 0 then []
    else PairsTo(counts, n - 1) + (if counts[n - 1] > 0 then [(counts[n - 1], n - 1)] else [])
  }

  /** The number of cards of each rank 0..12. */
  function RankCounts(cards: set<string>): (counts: seq<int>)
    ensures |counts| == 13 && forall r :: 0 <= r < 13 ==> counts[r] == |Ranked(cards, r)|
  {
    seq(13, r => |Ranked(cards, r)|)
  }

  function Rcounts(cards: set<string>): seq<(int, int)> {
    PairsTo(RankCounts(cards), 13)
  }

  /** counts[0] + ... + counts[n-1]. */
  function SumTo(counts: seq<int>, n: nat): int
    requires n <= |counts|
  {
    if n == 0 then 0 else SumTo(counts, n - 1) + counts[n - 1]
  }

  /** Every pair holds a positive count with its own index below n. */
  lemma {:induction false} PairsToEntries(counts: seq<int>, n: nat)
    requires n <= |counts|
    ensures forall k :: 0 <= k < |PairsTo(counts, n)| ==>
      var p := PairsTo(counts, n)[k]; 0 <= p.1 < n && p.0 > 0 && p.0 == counts[p.1]
  {
    if n > 0 {
      PairsToEntries(counts, n - 1);
    }
  }

  /** The pairs come in strictly ascending index. */
  lemma {:induction false} PairsToAscending(counts: seq<int>, n: nat)
    requires n <= |counts|
    ensures forall k, l :: 0 <= k < l < |PairsTo(counts, n)| ==> PairsTo(counts, n)[k].1 < PairsTo(counts, n)[l].1
  {
    if n > 0 {
      PairsToAscending(counts, n - 1);
      PairsToEntries(counts, n - 1);
    }
  }

  /** Every index below n with a positive count has its pair. */
  lemma {:induction false} PairsToComplete(counts: seq<int>, n: nat)
    requires n <= |counts|
    ensures forall r :: 0 <= r < n && counts[r] > 0 ==> r in Seconds(PairsTo(counts, n))
  {
    if n > 0 {
      PairsToComplete(counts, n - 1);
      var init := PairsTo(counts, n - 1);
      var ps := PairsTo(counts, n);
      if counts[n - 1] > 0 {
        assert ps == init + [(counts[n - 1], n - 1)];
        forall r | 0 <= r < n && counts[r] > 0 ensures r in Seconds(ps) {
          if r == n - 1 {
            assert Seconds(ps)[|init|] == r;
          } else {
            var j :| 0 <= j < |init| && Seconds(init)[j] == r;
            assert Seconds(ps)[j] == r;
          }
        }
      } else {
        assert ps == init;
      }
    }
  }

  /** The pairs hold exactly the positive counts, each with its index, in ascending index. */
  lemma PairsToMeaning(counts: seq<int>, n: nat)
    requires n <= |counts|
    ensures var ps := PairsTo(counts, n);
      && (forall k :: 0 <= k < |ps| ==> 0 <= ps[k].1 < n && ps[k].0 > 0 && ps[k].0 == counts[ps[k].1])
      && (forall k, l :: 0 <= k < l < |ps| ==> ps[k].1 < ps[l].1)
      && (forall r :: 0 <= r < n && counts[r] > 0 ==> r in Seconds(ps))
  {
    PairsToEntries(counts, n);
    PairsToAscending(counts, n);
    PairsToComplete(counts, n);
  }

  /** All the indices: the pairs tally the counts. */
  lemma PairsToTally(counts: seq<int>)
    ensures TallyOf(PairsTo(counts, |counts|), counts)
  {
    var ps := PairsTo(counts, |counts|);
    PairsToEntries(counts, |counts|);
    PairsToAscending(counts, |counts|);
    PairsToComplete(counts, |counts|);
    forall i, j | 0 <= i < j < |ps| ensures Seconds(ps)[i] != Seconds(ps)[j] {
      assert ps[i].1 < ps[j].1;
    }
  }

  /** With no negative counts, the pairs' counts add up to all the counts. */
  lemma {:induction false} PairsToSum(counts: seq<int>, n: nat)
    requires n <= |counts| && forall i :: 0 <= i < |counts| ==> counts[i] >= 0
    ensures SumInts(Firsts(PairsTo(counts, n))) == SumTo(counts, n)
  {
    if n > 0 {
      PairsToSum(counts, n - 1);
      var last := if counts[n - 1] > 0 then [(counts[n - 1], n - 1)] else [];
      assert PairsTo(counts, n) == PairsTo(counts, n - 1) + last;
      FirstsSumConcat(PairsTo(counts, n - 1), last);
      LastPairSum(counts[n - 1], n - 1);
    }
  }

  /** The pair a non-negative count contributes adds that count. */
  lemma LastPairSum(c: int, r: int)
    requires c >= 0
    ensures SumInts(Firsts(if c > 0 then [(c, r)] else [])) == c
  {
    if c > 0 {
      assert Firsts([(c, r)]) == [c] + Firsts([]);
    }
  }

  lemma {:induction false} FirstsSumConcat(a: seq<(int, int)>, b: seq<(int, int)>)
    ensures SumInts(Firsts(a + b)) == SumInts(Firsts(a)) + SumInts(Firsts(b))
  {
    if a == [] {
      assert a + b == b;
    } else {
      assert (a + b)[1..] == a[1..] + b;
      assert Firsts(a + b) == [a[0].0] + Firsts(a[1..] + b);
      assert Firsts(a) == [a[0].0] + Firsts(a[1..]);
      FirstsSumConcat(a[1..], b);
    }
  }

  /** Adding up the counts of ranks below n counts the cards of rank below n. */
  lemma {:induction false} RankCountsSum(cards: set<string>, n: nat)
    requires n <= 13
    ensures SumTo(RankCounts(cards), n) == |RankedBelow(cards, n)|
  {
    if n == 0 {
      assert RankedBelow(cards, n) == {};
    } else {
      RankCountsSum(cards, n - 1);
      RankedBelowSplit(cards, n);
    }
  }

  lemma RankedBelowSplit(cards: set<string>, n: int)
    ensures |RankedBelow(cards, n)| == |RankedBelow(cards, n - 1)| + |Ranked(cards, n - 1)|
  {
    assert RankedBelow(cards, n) == RankedBelow(cards, n - 1) + Ranked(cards, n - 1);
    assert RankedBelow(cards, n - 1) * Ranked(cards, n - 1) == {};
  }

  /** `get_rcounts` yields one pair per rank present, ascending by rank, and the counts add up
      to the number of cards. */
  lemma RcountsMeaning(cards: set<string>)
    requires AllCardsIn(cards)
    ensures var rc := Rcounts(cards);
      && (forall k :: 0 <= k < |rc| ==> 0 <= rc[k].1 < 13 && rc[k].0 > 0 && rc[k].0 == |Ranked(cards, rc[k].1)|)
      && (forall k, l :: 0 <= k < l < |rc| ==> rc[k].1 < rc[l].1)
      && (forall r :: 0 <= r < 13 && |Ranked(cards, r)| > 0 ==> r in Seconds(rc))
      && SumInts(Firsts(rc)) == |cards|
  {
    var counts := RankCounts(cards);
    PairsToMeaning(counts, 13);
    PairsToSum(counts, 13);
    RankCountsSum(cards, 13);
    assert RankedBelow(cards, 13) == cards;
  }

  /** Adding one card to the cards already counted raises the count of its rank only. */
  lemma RankedAdd(done: set<string>, card: string, r: int)
    requires IsCard(card) && card !in done
    ensures |Ranked(done + {card}, r)| == |Ranked(done, r)| + (if Rank(card) == r then 1 else 0)
  {
    if Rank(card) == r {
      assert Ranked(done + {card}, r) == Ranked(done, r) + {card};
    } else {
      assert Ranked(done + {card}, r) == Ranked(done, r);
    }
  }

  /** The first loop of `get_rcounts`: the rank index of every card, in the set's order. */
  method CollectRanks(cards: set<string>) returns (availableRanks: seq<int>)
    requires AllCardsIn(cards)
    ensures forall r :: multiset(availableRanks)[r] == |Ranked(cards, r)|
  {
    availableRanks := [];
    var pending := cards;
    while pending != {}
      invariant pending <= cards
      invariant forall r :: multiset(availableRanks)[r] == |Ranked(cards - pending, r)|
      decreases |pending|
    {
      var card :| card in pending;
      RanksStep(cards, pending, card, availableRanks);
      var rank := Rank(card);
      availableRanks := availableRanks + [rank];
      pending := pending - {card};
    }
    assert cards - pending == cards;
  }

  /** One more card counted: the tally of its rank goes up by one. */
  lemma RanksStep(cards: set<string>, pending: set<string>, card: string, ranks: seq<int>)
    requires AllCardsIn(cards) && card in pending && pending <= cards
    requires forall r :: multiset(ranks)[r] == |Ranked(cards - pending, r)|
    ensures forall r :: multiset(ranks + [Rank(card)])[r] == |Ranked(cards - (pending - {card}), r)|
  {
    var done := cards - pending;
    assert cards - (pending - {card}) == done + {card};
    assert multiset(ranks + [Rank(card)]) == multiset(ranks) + multiset{Rank(card)};
    forall r ensures multiset(ranks + [Rank(card)])[r] == |Ranked(done + {card}, r)| {
      RankedAdd(done, card, r);
    }
  }

  /** `get_rcounts`. The `available_ranks` argument is taken by value and every caller passes
      an empty vector, so it starts empty here. */
  method GetRcounts(cards: set<string>) returns (rcounts: seq<(int, int)>)
    requires AllCardsIn(cards)
    ensures rcounts == Rcounts(cards)
  {
    var availableRanks := CollectRanks(cards);
    rcounts := [];
    for i := 0 to 13
      invariant rcounts == PairsTo(RankCounts(cards), i)
    {
      var count := multiset(availableRanks)[i];
      if count > 0 {
        rcounts := rcounts + [(count, i)];
      }
    }
  }

  // ---------------------------------------------------------------------------
  // The suit of the flush.

  /** The cards of the set whose suit character is `suit`. */
  function Suited(cards: set<string>, suit: char): set<string> {
    set c | c in cards && IsCard(c) && c[1] == suit
  }

  /** The number of cards of each suit of "CDHS". */
  function SuitTally(cards: set<string>): (counts: seq<int>)
    ensures |counts| == 4 && forall s :: 0 <= s < 4 ==> counts[s] == |Suited(cards, SUITS[s])|
  {
    seq(4, s requires 0 <= s < 4 => |Suited(cards, SUITS[s])|)
  }

  /** The (count, suit index) pairs for the suits that occur, in "CDHS" order. */
  function SuitCounts(cards: set<string>): seq<(int, int)> {
    PairsTo(SuitTally(cards), 4)
  }

  /** The suit strings "C" < "D" < "H" < "S" compare as their positions in "CDHS", so the
      sort over (count, suit) pairs can be taken over (count, suit index) pairs. */
  lemma SuitOrder()
    ensures forall i, j :: 0 <= i < j < 4 ==> SUITS[i] < SUITS[j]
  {
  }

  /** A non-empty hand has a suit that occurs. */
  lemma SuitCountsNonEmpty(cards: set<string>)
    requires AllCardsIn(cards) && cards != {}
    ensures SuitCounts(cards) != []
  {
    var c :| c in cards;
    var s := Suit(c);
    assert c in Suited(cards, SUITS[s]);
    PairsToMeaning(SuitTally(cards), 4);
    assert s in Seconds(SuitCounts(cards));
  }

  lemma SuitedAdd(done: set<string>, card: string, ch: char)
    requires IsCard(card) && card !in done
    ensures |Suited(done + {card}, ch)| == |Suited(done, ch)| + (if card[1] == ch then 1 else 0)
  {
    if card[1] == ch {
      assert Suited(done + {card}, ch) == Suited(done, ch) + {card};
    } else {
      assert Suited(done + {card}, ch) == Suited(done, ch);
    }
  }

  /** One more card counted: the tally of its suit goes up by one. */
  lemma SuitsStep(cards: set<string>, pending: set<string>, card: string, suits: seq<char>)
    requires AllCardsIn(cards) && card in pending && pending <= cards
    requires forall ch :: multiset(suits)[ch] == |Suited(cards - pending, ch)|
    ensures IsCard(card)
    ensures forall ch :: multiset(suits + [card[1]])[ch] == |Suited(cards - (pending - {card}), ch)|
  {
    var done := cards - pending;
    assert cards - (pending - {card}) == done + {card};
    assert multiset(suits + [card[1]]) == multiset(suits) + multiset{card[1]};
    forall ch ensures multiset(suits + [card[1]])[ch] == |Suited(done + {card}, ch)| {
      SuitedAdd(done, card, ch);
    }
  }

  /** The loops that collect `available_suits` and then count each of "C", "D", "H", "S". */
  method CountSuits(cards: set<string>) returns (rsuits: seq<(int, int)>)
    requires AllCardsIn(cards)
    ensures rsuits == SuitCounts(cards)
  {
    var availableSuits: seq<char> := [];
    var pending := cards;
    while pending != {}
      invariant pending <= cards
      invariant forall ch :: multiset(availableSuits)[ch] == |Suited(cards - pending, ch)|
      decreases |pending|
    {
      var card :| card in pending;
      SuitsStep(cards, pending, card, availableSuits);
      availableSuits := availableSuits + [card[1]];
      pending := pending - {card};
    }
    assert cards - pending == cards;
    rsuits := [];
    for s := 0 to 4
      invariant rsuits == PairsTo(SuitTally(cards), s)
    {
      var count := multiset(availableSuits)[SUITS[s]];
      if count > 0 {
        rsuits := rsuits + [(count, s)];
      }
    }
  }

  /** The loop that keeps the cards whose second character is the flush suit. */
  method CollectSuited(cards: set<string>, suit: char) returns (flushHand: set<string>)
    requires AllCardsIn(cards)
    ensures flushHand == Suited(cards, suit)
  {
    flushHand := {};
    var pending := cards;
    while pending != {}
      invariant pending <= cards
      invariant flushHand == Suited(cards - pending, suit)
      decreases |pending|
    {
      var card :| card in pending;
      SuitedInsert(cards - pending, card, suit);
      if card[1] == suit {
        flushHand := flushHand + {card};
      }
      assert cards - (pending - {card}) == (cards - pending) + {card};
      pending := pending - {card};
    }
    assert cards - pending == cards;
  }

  /** One more card adds itself to the suited cards exactly when it has the suit. */
  lemma SuitedInsert(done: set<string>, card: string, suit: char)
    requires IsCard(card)
    ensures Suited(done + {card}, suit) == Suited(done, suit) + (if card[1] == suit then {card} else {})
  {
  }

  // ---------------------------------------------------------------------------
  // Splitting the sorted pairs and scanning for a straight.

  /** The loop that pushes each pair's count onto `score` and its rank onto `card_ranks`. */
  method SplitPairs(rc: seq<(int, int)>) returns (score: seq<int>, cardRanks: seq<int>)
    ensures score == Firsts(rc) && cardRanks == Seconds(rc)
  {
    score, cardRanks := [], [];
    for i := 0 to |rc|
      invariant |score| == |cardRanks| == i
      invariant forall k :: 0 <= k < i ==> score[k] == rc[k].0 && cardRanks[k] == rc[k].1
    {
      score := score + [rc[i].0];
      cardRanks := cardRanks + [rc[i].1];
    }
  }

  /** The `for (int i = 0; i < v.size() - 4; ++i)` loop that sets `straight` on each window
      and breaks on the first straight one. `v.size() - 4` is unsigned: a vector of fewer than
      four ranks would wrap around, so it needs at least four. */
  method ScanForStraight(s: seq<int>, straight0: bool) returns (straight: bool, at: int)
    requires |s| >= 4
    ensures (straight, at) == ScanStraight(s, 0, straight0)
  {
    straight, at := straight0, -1;
    var i := 0;
    while i < |s| - 4
      invariant 0 <= i <= |s| - 4
      invariant ScanStraight(s, i, straight) == ScanStraight(s, 0, straight0)
    {
      straight := s[i] - s[i + 4] == 4;
      if straight {
        at := i;
        return;
      }
      i := i + 1;
    }
  }

  // ---------------------------------------------------------------------------
  // calc_score as a specification.

  /** Every pair of the sorted suit counts names a suit index of "CDHS" and holds the
      number of cards of that suit. */
  lemma SortedSuitsInRange(cards: set<string>)
    ensures forall k :: 0 <= k < |SortPairsDesc(SuitCounts(cards))| ==>
      var p := SortPairsDesc(SuitCounts(cards))[k]; 0 <= p.1 < 4 && p.0 == |Suited(cards, SUITS[p.1])|
  {
    var rs := SortPairsDesc(SuitCounts(cards));
    PairsToEntries(SuitTally(cards), 4);
    forall k | 0 <= k < |rs| ensures 0 <= rs[k].1 < 4 && rs[k].0 == |Suited(cards, SUITS[rs[k].1])| {
      assert rs[k] in multiset(SuitCounts(cards));
    }
  }

  /** Cards of one suit have distinct ranks, so a suit with at least five cards shows at least
      five ranks: the flush loop's `card_ranks.size() - 4` cannot wrap around. */
  lemma FlushRanksAtLeastFive(cards: set<string>, suit: char)
    requires AllCardsIn(cards) && suit in SUITS && |Suited(cards, suit)| >= 5
    ensures |Rcounts(Suited(cards, suit))| >= 5
  {
    var fh := Suited(cards, suit);
    var rc := Rcounts(fh);
    RcountsMeaning(fh);
    forall k | 0 <= k < |Firsts(rc)| ensures Firsts(rc)[k] <= 1 {
      var r := rc[k].1;
      var only := {CardOf(r, Find(SUITS, suit))};
      forall c | c in Ranked(fh, r) ensures c in only {
        CardOfRankSuit(c);
      }
      SubsetSize(Ranked(fh, r), only);
    }
    SumAtMostLength(Firsts(rc));
  }

  /** The ranks of the flush suit, descending, with the low ace when an ace is among them. */
  function CppFlushRanks(cards: set<string>, suit: char): seq<int> {
    var fr := Seconds(SortPairsDesc(Rcounts(Suited(cards, suit))));
    if 12 in fr && -1 !in fr then fr + [-1] else fr
  }

  /** The branch for five or more distinct ranks. `rsuits` is sorted by std::greater over
      (count, suit string) pairs, modelled over (count, suit index) pairs (SuitOrder); its
      first element is read without a size check. */
  function CppStraightOrFlush(cards: set<string>, cardRanks: seq<int>): (r: Result<(seq<int>, seq<int>)>)
    ensures r.Ok? ==> r.value.0 == [1] || r.value.0 == [3, 1, 2] || r.value.0 == [3, 1, 3] || r.value.0 == [5]
  {
    var (straight, cr2) := CppRankScan(cardRanks);
    var rsuits := SortPairsDesc(SuitCounts(cards));
    if rsuits == [] then Err(UndefinedBehaviour)
    else if rsuits[0].0 < 5 then Ok((if straight then [3, 1, 2] else [1], cr2))
    else
      SortedSuitsInRange(cards);
      var fr2 := CppFlushRanks(cards, SUITS[rsuits[0].1]);
      var scan2 := ScanStraight(fr2, 0, straight);
      Ok((if scan2.0 then [5] else [3, 1, 3], fr2))
  }

  /** The straight test over all ranks: the low ace is appended to `card_ranks`, a sorted
      copy is scanned, and a straight found replaces `card_ranks` by its five-rank window. */
  function CppRankScan(cardRanks: seq<int>): (bool, seq<int>) {
    var cr1 := AceLow(cardRanks);
    var sorted := SortIntsDesc(cr1);
    var scan := ScanStraight(sorted, 0, false);
    (scan.0, if scan.1 >= 0 then sorted[scan.1..scan.1 + 5] else cr1)
  }

  /** The full house, three pairs, four of a kind and five-or-more-ranks branches of
      `calc_score`, decided on `slice`s of the score (a slice equal to four counts
      exists only when there are at least four). */
  function CppClassify(cards: set<string>, score: seq<int>, cr: seq<int>): (r: Result<(seq<int>, seq<int>)>)
    requires |score| > 0 && |score| == |cr|
    ensures r.Ok? ==> |r.value.0| > 0
  {
    if Slice(score, 0, 2) == [3, 2] || Slice(score, 0, 2) == [3, 3] then Ok(([3, 2], Slice(cr, 0, 2)))
    else if |score| >= 4 && Slice(score, 0, 5) == [2, 2, 2, 1] then Ok(([2, 2, 1], [cr[0], cr[1], MaxInt(cr[2], cr[3])]))
    else if score[0] == 4 then
      var sorted := SortIntsDesc(cr);
      if |sorted| < 2 then Err(UndefinedBehaviour) else Ok(([4], [sorted[0], sorted[1]]))
    else if |score| >= 5 then CppStraightOrFlush(cards, cr)
    else Ok((score, cr))
  }

  /** The `potential_*` flags, taken on the original score, upgrade a score led by 1. */
  function CppUpgrade(score: seq<int>, shape: seq<int>): seq<int>
    requires |score| > 0 && |shape| > 0
  {
    if score[0] == 1 && shape[0] == 3 then [3, 1]
    else if score[0] == 1 && shape == [2, 2, 1, 1, 1] then [2, 2, 1]
    else if score[0] == 1 && shape == [2, 1, 1, 1, 1, 1] then [2, 1, 1]
    else score
  }

  /** The label chain of `calc_score`, decided on `slice`s of the score. */
  function CppFinish(score: seq<int>, cr: seq<int>): Result<Scored>
    requires |score| > 0
  {
    if score[0] == 5 then Ok(Scored(score, cr, StraightFlush))
    else if score[0] == 4 then Ok(Scored(score, cr, FourOfAKind))
    else if Slice(score, 0, 2) == [3, 2] then Ok(Scored(score, cr, FullHouse))
    else if Slice(score, 0, 3) == [3, 1, 3] then Ok(Scored(score, Slice(cr, 0, 5), Flush))
    else if Slice(score, 0, 3) == [3, 1, 2] then Ok(Scored(score, Slice(cr, 0, 5), Straight))
    else if Slice(score, 0, 2) == [3, 1] then Ok(Scored(score, Slice(cr, 0, 3), ThreeOfAKind))
    else if Slice(score, 0, 2) == [2, 2] then Ok(Scored(score, Slice(cr, 0, 3), TwoPair))
    else if score[0] == 2 then Ok(Scored(score, Slice(cr, 0, 4), Pair))
    else if score[0] == 1 then Ok(Scored(score, Slice(cr, 0, 5), HighCard))
    else Err(CardTypeError)
  }

  /** `calc_score`: with no cards, `score[0]` reads past the end. */
  function CppCalcScore(cards: set<string>): Result<Scored>
  {
    var rc := SortPairsDesc(Rcounts(cards));
    if rc == [] then Err(UndefinedBehaviour)
    else
      var score := Firsts(rc);
      var mid :- CppClassify(cards, score, Seconds(rc));
      CppFinish(CppUpgrade(mid.0, score), mid.1)
  }

  /** CppCalcScore in two stages: the shape branches, then the upgrade and the label. */
  lemma CppCalcScoreStages(cards: set<string>, mid: (seq<int>, seq<int>))
    requires |Rcounts(cards)| > 0 && |mid.0| > 0
    requires CppClassify(cards, Firsts(SortPairsDesc(Rcounts(cards))), Seconds(SortPairsDesc(Rcounts(cards)))) == Ok(mid)
    ensures CppCalcScore(cards) == CppFinish(CppUpgrade(mid.0, Firsts(SortPairsDesc(Rcounts(cards)))), mid.1)
  {
    assert |SortPairsDesc(Rcounts(cards))| > 0 by {
      assert |multiset(SortPairsDesc(Rcounts(cards)))| == |multiset(Rcounts(cards))|;
    }
  }

  // ---------------------------------------------------------------------------
  // calc_score.

  /** The flush branch up to its straight test: the flush hand, its sorted rank pairs, and
      the ranks with the low ace. */
  method FlushRanksCpp(cards: set<string>, suit: char) returns (cardRanks: seq<int>)
    requires AllCardsIn(cards) && suit in SUITS
    ensures cardRanks == CppFlushRanks(cards, suit)
    ensures |Suited(cards, suit)| >= 5 ==> |cardRanks| >= 5
  {
    var flushHand := CollectSuited(cards, suit);
    var rcountsFlush := GetRcounts(flushHand);
    ghost var unsorted := rcountsFlush;
    rcountsFlush := SortPairsDesc(rcountsFlush);
    assert |rcountsFlush| == |unsorted| by {
      assert |multiset(rcountsFlush)| == |multiset(unsorted)|;
    }
    if |Suited(cards, suit)| >= 5 {
      FlushRanksAtLeastFive(cards, suit);
    }
    var _, flushRanks := SplitPairs(rcountsFlush);
    cardRanks := flushRanks;
    if 12 in cardRanks && -1 !in cardRanks {
      cardRanks := cardRanks + [-1];
    }
  }

  /** The first straight test of `calc_score`, on at least five ranks. */
  method RankScanCpp(ranks: seq<int>) returns (straight: bool, cardRanks: seq<int>)
    requires |ranks| >= 5
    ensures (straight, cardRanks) == CppRankScan(ranks)
  {
    cardRanks := ranks;
    if 12 in cardRanks {
      cardRanks := cardRanks + [-1];
    }
    var sorted := SortIntsDesc(cardRanks);
    assert |sorted| == |cardRanks| by {
      assert |multiset(sorted)| == |multiset(cardRanks)|;
    }
    var at;
    straight, at := ScanForStraight(sorted, false);
    if straight {
      cardRanks := sorted[at..at + 5];
    }
  }

  /** The straight and flush part of `calc_score`, entered with at least five ranks. */
  method StraightOrFlushCpp(cards: set<string>, ranks: seq<int>) returns (r: Result<(seq<int>, seq<int>)>)
    requires AllCardsIn(cards) && |ranks| >= 5
    ensures r == CppStraightOrFlush(cards, ranks)
  {
    var straight, cardRanks := RankScanCpp(ranks);
    var rsuits := CountSuits(cards);
    rsuits := SortPairsDesc(rsuits);
    if rsuits == [] {
      return Err(UndefinedBehaviour);
    }
    var flush := rsuits[0].0 >= 5;
    if flush {
      SortedSuitsInRange(cards);
      cardRanks := FlushRanksCpp(cards, SUITS[rsuits[0].1]);
      var at;
      straight, at := ScanForStraight(cardRanks, straight);
    }
    var score: seq<int>;
    if !flush && !straight {
      score := [1];
    } else if !flush && straight {
      score := [3, 1, 2];
    } else if flush && !straight {
      score := [3, 1, 3];
    } else {
      score := [5];
    }
    r := Ok((score, cardRanks));
  }

  /** The shape branches of `calc_score`, reassigning `score` and `card_ranks`. */
  method ClassifyCpp(cards: set<string>, score0: seq<int>, ranks: seq<int>) returns (r: Result<(seq<int>, seq<int>)>)
    requires AllCardsIn(cards) && |score0| > 0 && |score0| == |ranks|
    ensures r == CppClassify(cards, score0, ranks)
  {
    var score, cardRanks := score0, ranks;
    if Slice(score, 0, 2) == [3, 2] || Slice(score, 0, 2) == [3, 3] {
      cardRanks := Slice(cardRanks, 0, 2);
      score := [3, 2];
    } else if Slice(score, 0, 5) == [2, 2, 2, 1] {
      score := [2, 2, 1];
      var kicker := MaxInt(cardRanks[2], cardRanks[3]);
      cardRanks := [cardRanks[0], cardRanks[1], kicker];
    } else if score[0] == 4 {
      score := [4];
      var sorted := SortIntsDesc(cardRanks);
      if |sorted| < 2 {
        return Err(UndefinedBehaviour);
      }
      cardRanks := [sorted[0], sorted[1]];
    } else if |score| >= 5 {
      r := StraightOrFlushCpp(cards, cardRanks);
      return;
    }
    r := Ok((score, cardRanks));
  }

  /** `calc_score`. `std::sort` with `std::greater` is modelled by its result, SortPairsDesc. */
  method CalcScoreCpp(cards: set<string>) returns (r: Result<Scored>)
    requires AllCardsIn(cards)
    ensures r == CppCalcScore(cards)
  {
    var rcounts := GetRcounts(cards);
    rcounts := SortPairsDesc(rcounts);
    var score, cardRanks := SplitPairs(rcounts);
    if score == [] {
      return Err(UndefinedBehaviour);
    }
    var potentialThreeOfAKind := score[0] == 3;
    var potentialTwoPair := score == [2, 2, 1, 1, 1];
    var potentialPair := score == [2, 1, 1, 1, 1, 1];
    var shape := score;
    var mid := ClassifyCpp(cards, score, cardRanks);
    if mid.Err? {
      return Err(mid.error);
    }
    score, cardRanks := mid.value.0, mid.value.1;
    if score[0] == 1 && potentialThreeOfAKind {
      score := [3, 1];
    } else if score[0] == 1 && potentialTwoPair {
      score := [2, 2, 1];
    } else if score[0] == 1 && potentialPair {
      score := [2, 1, 1];
    }
    assert score == CppUpgrade(mid.value.0, shape);
    r := CppFinish(score, cardRanks);
  }

  // ---------------------------------------------------------------------------
  // eval_best_hand.

  /** The greatest triple of a non-empty list: equal triples are interchangeable, so this is
      what `std::sort` with `std::greater` puts first. */
  function MaxScored(s: seq<Scored>): (m: Scored)
    requires |s| > 0
    ensures m in s
    ensures forall j :: 0 <= j < |s| ==> !Below(m, s[j])
  {
    if |s| == 1 then
      BelowTotal(s[0], s[0]);
      s[0]
    else
      var m := MaxScored(s[1..]);
      MaxStep(s, m);
      if Below(s[0], m) then m else s[0]
  }

  lemma MaxStep(s: seq<Scored>, m: Scored)
    requires |s| > 1 && m in s[1..]
    requires forall j :: 0 <= j < |s| - 1 ==> !Below(m, s[1..][j])
    ensures Below(s[0], m) ==> forall j :: 0 <= j < |s| ==> !Below(m, s[j])
    ensures !Below(s[0], m) ==> forall j :: 0 <= j < |s| ==> !Below(s[0], s[j])
  {
    BelowTotal(s[0], m);
    BelowTotal(s[0], s[0]);
    forall j | 1 <= j < |s| ensures !Below(m, s[j]) {
      assert s[1..][j - 1] == s[j];
    }
    if !Below(s[0], m) {
      forall j | 1 <= j < |s| ensures !Below(s[0], s[j]) {
        BelowTotal(s[j], m);
        if Below(s[0], s[j]) && Below(s[j], m) {
          BelowTransitive(s[0], s[j], m);
        }
      }
    }
  }

  /** The scores of all players' combined cards, in order. */
  function CppScores(all: seq<set<string>>): (rs: seq<Result<Scored>>)
    ensures |rs| == |all| && forall i :: 0 <= i < |all| ==> rs[i] == CppCalcScore(all[i])
  {
    seq(|all|, i requires 0 <= i < |all| => CppCalcScore(all[i]))
  }

  /** `eval_best_hand`: whether the first player's triple is the greatest. The first error
      stops the scoring loop, and with no players `all_players_score[0]` reads past the end. */
  function CppEvalBestHand(all: seq<set<string>>): Result<bool>
  {
    var scores :- CppScoreAll(all);
    if scores == [] then Err(UndefinedBehaviour) else Ok(MaxScored(scores) == scores[0])
  }

  /** The scoring loop of `eval_best_hand`: every player's triple, or the first error. */
  function CppScoreAll(all: seq<set<string>>): Result<seq<Scored>> {
    Collect(CppScores(all))
  }

  /** The first player wins exactly when no player's triple is above the first: a tie for
      the best triple counts as a win. */
  lemma CppEvalBestHandMeaning(all: seq<set<string>>)
    requires CppEvalBestHand(all).Ok?
    ensures |all| > 0 && forall i :: 0 <= i < |all| ==> CppCalcScore(all[i]).Ok?
    ensures CppEvalBestHand(all).value <==>
      forall j :: 0 <= j < |all| ==> !Below(CppCalcScore(all[0]).value, CppCalcScore(all[j]).value)
  {
    var scores := CppScoreAll(all).value;
    assert |scores| == |all| && forall i :: 0 <= i < |all| ==> CppCalcScore(all[i]) == Ok(scores[i]);
    MaxIsFirst(scores);
  }

  /** The greatest triple is the first exactly when no triple is above the first. */
  lemma MaxIsFirst(scores: seq<Scored>)
    requires |scores| > 0
    ensures MaxScored(scores) == scores[0] <==> forall j :: 0 <= j < |scores| ==> !Below(scores[0], scores[j])
  {
    var best := MaxScored(scores);
    BelowTotal(scores[0], best);
  }

  /** No players is undefined behaviour, and otherwise the result is an error exactly when
      some player's cards cannot be scored. */
  lemma CppEvalBestHandErrors(all: seq<set<string>>)
    ensures all == [] ==> CppEvalBestHand(all) == Err(UndefinedBehaviour)
    ensures CppEvalBestHand(all).Ok? <==> all != [] && forall i :: 0 <= i < |all| ==> CppCalcScore(all[i]).Ok?
  {
  }

  /** `eval_best_hand`: scores every player in a loop, then sorts a copy of the scores in
      descending order (modelled by its first element, MaxScored) and compares it with the
      first player's score. */
  method EvalBestHandCpp(all: seq<set<string>>) returns (r: Result<bool>)
    requires forall i :: 0 <= i < |all| ==> AllCardsIn(all[i])
    ensures r == CppEvalBestHand(all)
  {
    var scores :- ScoreAllCpp(all);
    var original := scores;
    if |scores| == 0 {
      return Err(UndefinedBehaviour);
    }
    var first := MaxScored(scores);
    r := Ok(first == original[0]);
  }

  /** One round of the scoring loop. */
  method ScorePlayer(all: seq<set<string>>, i: nat) returns (s: Result<Scored>)
    requires i < |all| && AllCardsIn(all[i])
    ensures s == CppScores(all)[i]
  {
    s := CalcScoreCpp(all[i]);
  }

  /** The scoring loop of `eval_best_hand`: every player's triple, or the first error. */
  method ScoreAllCpp(all: seq<set<string>>) returns (r: Result<seq<Scored>>)
    requires forall i :: 0 <= i < |all| ==> AllCardsIn(all[i])
    ensures r == CppScoreAll(all)
  {
    ghost var rs := CppScores(all);
    var scores: seq<Scored> := [];
    for i := 0 to |all|
      invariant Collect(rs[..i]) == Ok(scores)
    {
      var s := ScorePlayer(all, i);
      CollectSnoc(rs, i);
      if s.Err? {
        CollectPrefixError(rs, i + 1);
        return Err(s.error);
      }
      scores := scores + [s.value];
    }
    assert rs[..|all|] == rs;
    return Ok(scores);
  }

  // ---------------------------------------------------------------------------
  // Deck.

  /** The card the constructor's nested loops build in round k: rank k / 4, suit k % 4. */
  function DeckCard(k: int): (c: string)
    requires 0 <= k < 52
    ensures IsCard(c)
  {
    CardOf(k / 4, k % 4)
  }

  /** The cards built in the first k rounds. */
  function DeckUpTo(k: int): set<string>
    requires 0 <= k <= 52
  {
    set i | 0 <= i < k :: DeckCard(i)
  }

  /** Round 4r + s of the constructor's loops adds rank r with suit s. */
  lemma DeckUpToNext(r: int, s: int)
    requires 0 <= r < 13 && 0 <= s < 4
    ensures DeckUpTo(4 * r + s + 1) == DeckUpTo(4 * r + s) + {CardOf(r, s)}
  {
    var k := 4 * r + s;
    QuarterOf(r, s);
    assert DeckCard(k) == CardOf(r, s);
    DeckUpToAdd(k);
  }

  /** Round 4r + s splits back into rank r and suit s. */
  lemma QuarterOf(r: int, s: int)
    requires 0 <= r < 13 && 0 <= s < 4
    ensures (4 * r + s) / 4 == r && (4 * r + s) % 4 == s
  {
  }

  /** The first k + 1 rounds build the first k and card k. */
  lemma DeckUpToAdd(k: int)
    requires 0 <= k < 52
    ensures DeckUpTo(k + 1) == DeckUpTo(k) + {DeckCard(k)}
  {
    DeckUpToGrows(k);
    DeckUpToNew(k);
  }

  /** Every card of the first k + 1 rounds is one of the first k or card k. */
  lemma DeckUpToNew(k: int)
    requires 0 <= k < 52
    ensures DeckUpTo(k + 1) <= DeckUpTo(k) + {DeckCard(k)}
  {
    forall c | c in DeckUpTo(k + 1) ensures c in DeckUpTo(k) + {DeckCard(k)} {
      var i :| 0 <= i < k + 1 && c == DeckCard(i);
      if i < k {
        assert c in DeckUpTo(k);
      }
    }
  }

  /** The first k + 1 rounds hold the first k and card k. */
  lemma DeckUpToGrows(k: int)
    requires 0 <= k < 52
    ensures DeckUpTo(k) + {DeckCard(k)} <= DeckUpTo(k + 1)
  {
    forall c | c in DeckUpTo(k) ensures c in DeckUpTo(k + 1) {
      var i :| 0 <= i < k && c == DeckCard(i);
      assert 0 <= i < k + 1;
    }
  }

  /** The full deck: the 52 rank and suit combinations. */
  function FullDeck(): set<string> {
    DeckUpTo(52)
  }

  /** The full deck holds 52 distinct cards, and every card string is in it. */
  lemma FullDeckCards()
    ensures |FullDeck()| == 52
    ensures forall c :: c in FullDeck() <==> IsCard(c)
  {
    var cards := seq(52, i requires 0 <= i < 52 => DeckCard(i));
    forall i, j | 0 <= i < j < 52 ensures cards[i] != cards[j] {
      CardOfParts(i / 4, i % 4);
      CardOfParts(j / 4, j % 4);
    }
    assert (set x | x in cards) == FullDeck() by {
      forall x | x in FullDeck() ensures x in cards {
        var i :| 0 <= i < 52 && DeckCard(i) == x;
        assert cards[i] == x;
      }
    }
    DistinctSetSize(cards);
    forall c | IsCard(c) ensures c in FullDeck() {
      CardOfRankSuit(c);
      var k := 4 * Rank(c) + Suit(c);
      assert k / 4 == Rank(c) && k % 4 == Suit(c);
      assert DeckCard(k) == c;
    }
  }

  /** The cards left in the deck once the visible cards are taken out. */
  function Remaining(fullDeck: set<string>, myCards: set<string>, tableCards: set<string>): set<string> {
    fullDeck - myCards - tableCards
  }

  /** Taking visible cards out of the full deck leaves 52 less their number, and none of
      them. */
  lemma RemainingCount(myCards: set<string>, tableCards: set<string>)
    requires AllCardsIn(myCards) && AllCardsIn(tableCards)
    ensures |Remaining(FullDeck(), myCards, tableCards)| == 52 - |myCards + tableCards|
    ensures Remaining(FullDeck(), myCards, tableCards) * (myCards + tableCards) == {}
  {
    FullDeckCards();
    var r := Remaining(FullDeck(), myCards, tableCards);
    assert r == FullDeck() - (myCards + tableCards);
    assert myCards + tableCards <= FullDeck();
    assert FullDeck() == r + (myCards + tableCards);
  }

  /** Each hand followed by the table cards, as `std::set` insertions. */
  function CombinedSets(hands: seq<set<string>>, tableCards: set<string>): (r: seq<set<string>>)
    ensures |r| == |hands| && forall i :: 0 <= i < |hands| ==> r[i] == hands[i] + tableCards
  {
    seq(|hands|, i requires 0 <= i < |hands| => hands[i] + tableCards)
  }

  /** `class Deck`: the full deck, the visible cards and what remains, and the players' hands
      (a `std::vector<Hand>` of values, modelled by the card set of each). */
  class Deck {
    var fullDeck: set<string>
    var myCards: set<string>
    var remainingCardsTmp: set<string>
    var remainingCards: set<string>
    var cardsOnTable: set<string>
    var playerHands: seq<set<string>>

    /** `Deck()`: inserts rank + suit for every rank of "23456789TJQKA" and every suit of
        "CDHS". */
    constructor ()
      ensures fullDeck == FullDeck()
      ensures myCards == {} && remainingCardsTmp == {} && remainingCards == {} && cardsOnTable == {}
      ensures playerHands == []
    {
      myCards, remainingCardsTmp, remainingCards, cardsOnTable := {}, {}, {}, {};
      playerHands := [];
      var deck: set<string> := {};
      for r := 0 to 13
        invariant deck == DeckUpTo(4 * r)
      {
        for s := 0 to 4
          invariant deck == DeckUpTo(4 * r + s)
        {
          var combined := [RANKS[r], SUITS[s]];
          DeckUpToNext(r, s);
          deck := deck + {combined};
        }
      }
      fullDeck := deck;
    }

    /** `remove_visible_cards`: both `set_difference`s write through a `std::inserter`, so
        they add to whatever the target sets already hold. */
    method RemoveVisibleCards(hand: Hand, tableCards: set<string>)
      modifies this
      ensures remainingCardsTmp == old(remainingCardsTmp) + (old(fullDeck) - old(hand.cards))
      ensures remainingCards == old(remainingCards) + (remainingCardsTmp - tableCards)
      ensures myCards == old(hand.cards) && cardsOnTable == tableCards
      ensures fullDeck == old(fullDeck) && playerHands == old(playerHands)
    {
      remainingCardsTmp := remainingCardsTmp + (fullDeck - hand.cards);
      remainingCards := remainingCards + (remainingCardsTmp - tableCards);
      myCards := hand.cards;
      cardsOnTable := tableCards;
    }

    /** `get_cards_combined`: each player's hand with the table cards inserted. */
    method GetCardsCombined() returns (all: seq<set<string>>)
      ensures all == CombinedSets(playerHands, cardsOnTable)
    {
      all := [];
      for i := 0 to |playerHands|
        invariant all == CombinedSets(playerHands[..i], cardsOnTable)
      {
        var combined := playerHands[i];
        combined := combined + cardsOnTable;
        all := all + [combined];
      }
      assert playerHands[..|playerHands|] == playerHands;
    }
  }

  /** The head of each round of `montecarlo()`: fewer than three table cards count as none,
      and a new `Deck` has my cards and the visible table cards removed. The deck then holds
      52 cards less the visible ones, and none of them. */
  method FreshDeckWithout(hand: Hand, cardsOnTable: set<string>) returns (deck: Deck)
    ensures var visible := if |cardsOnTable| < 3 then {} else cardsOnTable;
      && deck.remainingCards == Remaining(FullDeck(), hand.cards, visible)
      && deck.myCards == hand.cards && deck.cardsOnTable == visible && deck.fullDeck == FullDeck()
    ensures var visible := if |cardsOnTable| < 3 then {} else cardsOnTable;
      AllCardsIn(hand.cards) && AllCardsIn(cardsOnTable) ==>
        |deck.remainingCards| == 52 - |hand.cards + visible| && deck.remainingCards * (hand.cards + visible) == {}
  {
    var visible := cardsOnTable;
    if |visible| < 3 {
      visible := {};
    }
    deck := new Deck();
    deck.RemoveVisibleCards(hand, visible);
    if AllCardsIn(hand.cards) && AllCardsIn(cardsOnTable) {
      RemainingCount(hand.cards, visible);
    }
  }
}
