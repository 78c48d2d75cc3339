/** The Python ranker and its C++ port side by side: on a hand of at most seven distinct
    cards, `calc_score` of the card set equals `_calc_score` of the list, and the two
    `eval_best_hand`s name the same first player. */
module RankerAgreement {
  import opened Common
  import opened Cards
  import opened Tuples
  import opened HandEvaluator
  import opened MontecarloH
  import opened Montecarlo

  /** The `std::set` a list of cards becomes. */
  function SetOf(hand: seq<string>): (cards: set<string>)
    ensures forall c :: c in cards <==> c in hand
  {
    set c | c in hand
  }

  lemma SetOfCards(hand: seq<string>)
    requires AllCards(hand)
    ensures AllCardsIn(SetOf(hand))
  {
    forall c | c in SetOf(hand) ensures IsCard(c) {
      var i :| 0 <= i < |hand| && hand[i] == c;
    }
  }

  /** Counting a rank in a list without repeats counts the cards of that rank in its set. */
  lemma RanksAgree(hand: seq<string>, r: int)
    requires AllCards(hand) && Distinct(hand)
    ensures RankCount(hand, r) == |Ranked(SetOf(hand), r)|
  {
    RankCountIsCards(hand, r);
    assert CardsOfRank(hand, r) == Ranked(SetOf(hand), r);
  }

  /** The sorted rank pairs of both rankers coincide. */
  lemma CountedIsSortedRcounts(hand: seq<string>)
    requires AllCards(hand) && Distinct(hand)
    ensures Counted(hand) == SortPairsDesc(Rcounts(SetOf(hand)))
  {
    var cards := SetOf(hand);
    SetOfCards(hand);
    CountedTally(hand);
    var counts := RankCounts(cards);
    forall r | 0 <= r < 13 ensures RankCount(hand, r) == counts[r] {
      RanksAgree(hand, r);
    }
    assert TallyOf(Counted(hand), counts);
    PairsToTally(counts);
    TallyUnique(Counted(hand), Rcounts(cards), counts);
    PairsDescUnique(Counted(hand), SortPairsDesc(Rcounts(cards)));
  }

  // ---------------------------------------------------------------------------
  // Flushes.

  /** Counting a suit letter among a list's suits counts the cards of that suit in its set. */
  lemma {:induction false} SuitCountAgrees(hand: seq<string>, ch: char)
    requires AllCards(hand) && Distinct(hand)
    ensures CountChar(SuitChars(hand), ch) == |Suited(SetOf(hand), ch)|
  {
    if hand == [] {
      assert Suited(SetOf(hand), ch) == {};
    } else {
      var rest := hand[1..];
      SuitCountAgrees(rest, ch);
      var s := SuitChars(hand);
      assert s[1..] == SuitChars(rest);
      assert hand[0] !in SetOf(rest);
      assert SetOf(hand) == SetOf(rest) + {hand[0]};
      SuitedAdd(SetOf(rest), hand[0], ch);
    }
  }

  lemma {:induction false} MaxSuitCountAtLeast(suits: string, xs: string, k: nat)
    requires k < |xs|
    ensures MaxSuitCount(suits, xs) >= CountChar(suits, xs[k])
  {
    if k > 0 {
      MaxSuitCountAtLeast(suits, xs[1..], k - 1);
    }
  }

  /** The first sorted suit pair has the largest suit count. */
  lemma SuitsMax(cards: set<string>)
    requires AllCardsIn(cards) && cards != {}
    ensures var rs := SortPairsDesc(SuitCounts(cards));
      rs != [] && forall s :: 0 <= s < 4 ==> |Suited(cards, SUITS[s])| <= rs[0].0
  {
    var counts := SuitTally(cards);
    var rs := SortPairsDesc(SuitCounts(cards));
    SuitCountsNonEmpty(cards);
    PairsToTally(counts);
    TallyRearranged(SuitCounts(cards), rs, counts);
    TallyFirstIsMax(rs, counts);
  }

  /** The Python flush test and the C++ one (the most frequent suit has five cards) agree. */
  lemma HasFlushAgrees(hand: seq<string>)
    requires AllCards(hand) && Distinct(hand) && hand != []
    ensures var rs := SortPairsDesc(SuitCounts(SetOf(hand)));
      rs != [] && (HasFlush(hand) <==> rs[0].0 >= 5)
  {
    var cards := SetOf(hand);
    SetOfCards(hand);
    assert hand[0] in cards;
    var rs := SortPairsDesc(SuitCounts(cards));
    SuitsMax(cards);
    SortedSuitsInRange(cards);
    var suits := SuitChars(hand);
    if HasFlush(hand) {
      MaxSuitCountWitness(suits, suits);
      var k :| 0 <= k < |suits| && CountChar(suits, suits[k]) == MaxSuitCount(suits, suits);
      assert IsCard(hand[k]);
      SuitCountAgrees(hand, suits[k]);
      assert suits[k] == SUITS[Suit(hand[k])];
    }
    if rs[0].0 >= 5 {
      var t := rs[0].1;
      var c :| c in Suited(cards, SUITS[t]);
      var k :| 0 <= k < |hand| && hand[k] == c;
      SuitCountAgrees(hand, SUITS[t]);
      assert suits[k] == SUITS[t];
      MaxSuitCountAtLeast(suits, suits, k);
    }
  }

  lemma {:induction false} FlushSuitIn(hand: seq<string>, k: nat)
    requires AllCards(hand) && k < 4
    ensures FlushSuit(hand, k) in SUITS
    decreases 4 - k
  {
    if k < 3 && CountChar(SuitChars(hand), SUITS[k]) < 5 {
      FlushSuitIn(hand, k + 1);
    }
  }

  /** Nine cards or fewer have at most one suit with five cards, so the first such suit in
      "CDHS" order (Python) is the most frequent suit (C++). */
  lemma FlushSuitAgrees(hand: seq<string>)
    requires AllCards(hand) && Distinct(hand) && |hand| <= 9 && HasFlush(hand)
    ensures var rs := SortPairsDesc(SuitCounts(SetOf(hand)));
      rs != [] && 0 <= rs[0].1 < 4 && FlushSuit(hand, 0) == SUITS[rs[0].1]
  {
    var cards := SetOf(hand);
    HasFlushAgrees(hand);
    var rs := SortPairsDesc(SuitCounts(cards));
    SortedSuitsInRange(cards);
    var f := FlushSuit(hand, 0);
    var g := SUITS[rs[0].1];
    FlushSuitFound(hand);
    FlushSuitIn(hand, 0);
    SuitCountAgrees(hand, f);
    if f != g {
      TwoFlushSuits(cards, f, g);
      DistinctSetSize(hand);
    }
  }

  /** Two different suits with five cards each need ten cards. */
  lemma TwoFlushSuits(cards: set<string>, f: char, g: char)
    requires f != g && |Suited(cards, f)| >= 5 && |Suited(cards, g)| >= 5
    ensures |cards| >= 10
  {
    var a, b := Suited(cards, f), Suited(cards, g);
    assert a * b == {};
    assert |a + b| == |a| + |b|;
    SubsetSize(a + b, cards);
  }

  /** The flush ranks of both rankers coincide: the C++ rank pairs of the suited set, sorted,
      give the same ranks as the Python sorted ranks of the suited list. */
  lemma FlushRanksAgree(hand: seq<string>, suit: char)
    requires AllCards(hand) && Distinct(hand) && suit in SUITS
    ensures AllCards(FlushHand(hand, suit))
    ensures Seconds(SortPairsDesc(Rcounts(Suited(SetOf(hand), suit))))
      == SortIntsDesc(Seconds(Counted(FlushHand(hand, suit))))
  {
    var fh := FlushHand(hand, suit);
    FlushHandFacts(hand, suit);
    forall c ensures c in SetOf(fh) <==> c in Suited(SetOf(hand), suit) {
      if c in hand {
        var i :| 0 <= i < |hand| && hand[i] == c;
        SuitLetterIn(c, suit);
      }
    }
    assert SetOf(fh) == Suited(SetOf(hand), suit);
    CountedIsSortedRcounts(fh);
    var ps := Counted(fh);
    CountedTally(fh);
    forall i | 0 <= i < |ps| ensures ps[i].0 == 1 {
      SuitedRankCountAtMostOne(fh, suit, ps[i].1);
    }
    assert IntsDesc(Seconds(ps)) by {
      forall i, j | 0 <= i < j < |ps| ensures Seconds(ps)[i] >= Seconds(ps)[j] {
        assert PairGe(ps[i], ps[j]);
      }
    }
    IntsDescUnique(Seconds(ps), SortIntsDesc(Seconds(ps)));
  }

  /** The five-or-more-ranks branches agree on nine cards or fewer. */
  lemma StraightOrFlushAgrees(hand: seq<string>, cr: seq<int>)
    requires AllCards(hand) && Distinct(hand) && hand != [] && |hand| <= 9
    ensures CppStraightOrFlush(SetOf(hand), cr) == Ok(StraightOrFlush(hand, cr))
  {
    HasFlushAgrees(hand);
    if HasFlush(hand) {
      FlushBranchAgrees(hand, cr, CppRankScan(cr).0);
      FlushCaseAgrees(hand, cr);
    } else {
      NoFlushCaseAgrees(hand, cr);
    }
  }

  lemma NoFlushCaseAgrees(hand: seq<string>, cr: seq<int>)
    requires AllCards(hand) && !HasFlush(hand)
    requires var rs := SortPairsDesc(SuitCounts(SetOf(hand))); rs != [] && rs[0].0 < 5
    ensures CppStraightOrFlush(SetOf(hand), cr) == Ok(StraightOrFlush(hand, cr))
  {
  }

  lemma FlushCaseAgrees(hand: seq<string>, cr: seq<int>)
    requires AllCards(hand) && HasFlush(hand)
    requires var rs := SortPairsDesc(SuitCounts(SetOf(hand)));
      && rs != [] && rs[0].0 >= 5 && 0 <= rs[0].1 < 4
      && var fh := FlushHand(hand, FlushSuit(hand, 0));
      && AllCards(fh)
      && var fr := SortIntsDesc(Seconds(Counted(fh)));
      && CppFlushRanks(SetOf(hand), SUITS[rs[0].1]) == (if 12 in fr && -1 !in fr then fr + [-1] else fr)
    ensures CppStraightOrFlush(SetOf(hand), cr) == Ok(StraightOrFlush(hand, cr))
  {
  }

  /** The flush branch: same suit, same flush ranks, same second straight test. */
  lemma FlushBranchAgrees(hand: seq<string>, cr: seq<int>, straight: bool)
    requires AllCards(hand) && Distinct(hand) && |hand| <= 9 && HasFlush(hand)
    requires straight == CppRankScan(cr).0
    ensures var rs := SortPairsDesc(SuitCounts(SetOf(hand)));
      && rs != [] && 0 <= rs[0].1 < 4
      && var fh := FlushHand(hand, FlushSuit(hand, 0));
      && AllCards(fh)
      && var fr := SortIntsDesc(Seconds(Counted(fh)));
      && CppFlushRanks(SetOf(hand), SUITS[rs[0].1]) == (if 12 in fr && -1 !in fr then fr + [-1] else fr)
  {
    FlushSuitAgrees(hand);
    var rs := SortPairsDesc(SuitCounts(SetOf(hand)));
    FlushRanksAgree(hand, SUITS[rs[0].1]);
  }

  // ---------------------------------------------------------------------------
  // The shape branches, the upgrade and the label.

  /** With at most seven cards, the C++ three-pair test `slice(score, 0, 5) == {2,2,2,1}`
      and the Python test `score[:4] == (2,2,2,1)` agree: a fifth count would make eight
      cards. */
  lemma ThreePairsTestsAgree(score: seq<int>)
    requires forall i :: 0 <= i < |score| ==> score[i] >= 1
    requires SumInts(score) <= 7
    ensures Slice(score, 0, 5) == [2, 2, 2, 1] <==> Take(score, 4) == [2, 2, 2, 1]
  {
    SlicePrefix(score, 5);
    if |score| >= 5 {
      if Take(score, 4) == [2, 2, 2, 1] {
        FifthCountOverflows(score);
        assert false;
      }
      assert |Slice(score, 0, 5)| == 5;
    } else {
      assert Take(score, 4) == score;
    }
  }

  /** Three pairs and a single followed by any further count make at least eight cards. */
  lemma FifthCountOverflows(score: seq<int>)
    requires forall i :: 0 <= i < |score| ==> score[i] >= 1
    requires |score| >= 5 && score[..4] == [2, 2, 2, 1]
    ensures SumInts(score) >= 8
  {
    SumIntsSplit(score, 4);
    assert SumInts([2, 2, 2, 1]) == 7;
    SumAtLeastLength(score[4..]);
  }

  /** With eight cards the tests part: the count pattern (2,2,2,1,1) is three pairs to
      Python but not to the C++ port. */
  lemma ThreePairsTestsDifferOnEight()
    ensures SumInts([2, 2, 2, 1, 1]) == 8
    ensures Take([2, 2, 2, 1, 1], 4) == [2, 2, 2, 1]
    ensures Slice([2, 2, 2, 1, 1], 0, 5) != [2, 2, 2, 1]
  {
    assert Slice([2, 2, 2, 1, 1], 0, 5) == [2, 2, 2, 1, 1];
  }

  /** Given the tests agree and the five-or-more-ranks branches agree, the shape branches
      agree, up to the name of the error for a lone rank of four cards. */
  lemma ClassifyAgreesGiven(hand: seq<string>, score: seq<int>, cr: seq<int>)
    requires AllCards(hand) && |score| > 0 && |score| == |cr|
    requires Slice(score, 0, 5) == [2, 2, 2, 1] <==> Take(score, 4) == [2, 2, 2, 1]
    requires CppStraightOrFlush(SetOf(hand), cr) == Ok(StraightOrFlush(hand, cr))
    ensures CppClassify(SetOf(hand), score, cr).Ok? <==> Classify(hand, score, cr).Ok?
    ensures Classify(hand, score, cr).Ok? ==> CppClassify(SetOf(hand), score, cr) == Classify(hand, score, cr)
  {
    if Take(score, 2) == [3, 2] || Take(score, 2) == [3, 3] || Take(score, 4) == [2, 2, 2, 1] {
      PairedShapesAgree(hand, score, cr);
    } else {
      OtherShapesAgree(hand, score, cr);
    }
  }

  /** The full house and three pairs branches agree. */
  lemma PairedShapesAgree(hand: seq<string>, score: seq<int>, cr: seq<int>)
    requires AllCards(hand) && |score| > 0 && |score| == |cr|
    requires Slice(score, 0, 5) == [2, 2, 2, 1] <==> Take(score, 4) == [2, 2, 2, 1]
    requires Take(score, 2) == [3, 2] || Take(score, 2) == [3, 3] || Take(score, 4) == [2, 2, 2, 1]
    ensures CppClassify(SetOf(hand), score, cr) == Classify(hand, score, cr)
  {
    SlicePrefix(score, 2);
    SlicePrefix(cr, 2);
    var cards := SetOf(hand);
    if Take(score, 2) == [3, 2] || Take(score, 2) == [3, 3] {
      assert Slice(cr, 0, 2) == [cr[0], cr[1]];
      assert CppClassify(cards, score, cr) == Ok(([3, 2], [cr[0], cr[1]]));
    } else {
      assert CppClassify(cards, score, cr) == Ok(([2, 2, 1], [cr[0], cr[1], MaxInt(cr[2], cr[3])]));
    }
  }

  /** The four of a kind, five-or-more-ranks and fall-through branches agree, up to the
      name of the error for a lone rank of four cards. */
  lemma OtherShapesAgree(hand: seq<string>, score: seq<int>, cr: seq<int>)
    requires AllCards(hand) && |score| > 0 && |score| == |cr|
    requires Slice(score, 0, 5) == [2, 2, 2, 1] <==> Take(score, 4) == [2, 2, 2, 1]
    requires !(Take(score, 2) == [3, 2] || Take(score, 2) == [3, 3] || Take(score, 4) == [2, 2, 2, 1])
    requires CppStraightOrFlush(SetOf(hand), cr) == Ok(StraightOrFlush(hand, cr))
    ensures CppClassify(SetOf(hand), score, cr).Ok? <==> Classify(hand, score, cr).Ok?
    ensures Classify(hand, score, cr).Ok? ==> CppClassify(SetOf(hand), score, cr) == Classify(hand, score, cr)
  {
    SlicePrefix(score, 2);
    var cards := SetOf(hand);
    if score[0] == 4 {
      var sorted := SortIntsDesc(cr);
      assert CppClassify(cards, score, cr).Ok? <==> |sorted| >= 2;
      assert Classify(hand, score, cr).Ok? <==> |sorted| >= 2;
    } else if |score| >= 5 {
      assert CppClassify(cards, score, cr) == CppStraightOrFlush(cards, cr);
      assert Classify(hand, score, cr) == Ok(StraightOrFlush(hand, cr));
    } else {
      assert CppClassify(cards, score, cr) == Ok((score, cr));
    }
  }

  /** The C++ upgrade tests `score[0] == 1` where Python tests `score == (1,)`; they agree
      whenever a score led by 1 is the bare high card or the unchanged count shape. */
  lemma UpgradeAgrees(score: seq<int>, shape: seq<int>)
    requires |score| > 0 && |shape| > 0
    requires score[0] == 1 ==> score == [1] || score == shape
    ensures CppUpgrade(score, shape) == Upgrade(score, shape)
  {
  }

  /** The five-or-more-ranks branch scores a high card, a straight, a flush or a straight
      flush. */
  lemma StraightOrFlushScores(hand: seq<string>, cr: seq<int>)
    requires AllCards(hand)
    ensures var s := StraightOrFlush(hand, cr).0;
      s == [1] || s == [3, 1, 2] || s == [3, 1, 3] || s == [5]
  {
  }

  /** A Python shape result led by 1 is the bare high card or the count shape itself. */
  lemma ClassifyLeadingOne(hand: seq<string>, score: seq<int>, cr: seq<int>)
    requires AllCards(hand) && |score| > 0 && |score| == |cr| && Classify(hand, score, cr).Ok?
    ensures var s := Classify(hand, score, cr).value.0;
      s[0] == 1 ==> s == [1] || s == score
  {
    StraightOrFlushScores(hand, cr);
  }

  /** The label chains agree: `slice(v, 0, k)` is `v[:k]`. */
  lemma FinishAgrees(score: seq<int>, cr: seq<int>)
    requires |score| > 0
    ensures CppFinish(score, cr) == Finish(score, cr)
  {
    SlicePrefix(score, 2);
    SlicePrefix(score, 3);
    SlicePrefix(cr, 3);
    SlicePrefix(cr, 4);
    SlicePrefix(cr, 5);
  }

  /** On at most seven distinct cards the C++ `calc_score` of the card set succeeds exactly
      when the Python `_calc_score` of the list does, and then gives the same triple. The
      errors differ in name only: no cards, or four cards of one rank alone, raise in Python
      and read past a vector's end in C++. */
  lemma CalcScoreAgrees(hand: seq<string>)
    requires AllCards(hand) && Distinct(hand) && |hand| <= 7
    ensures CppCalcScore(SetOf(hand)).Ok? <==> CalcScore(hand).Ok?
    ensures CalcScore(hand).Ok? ==> CppCalcScore(SetOf(hand)) == CalcScore(hand)
  {
    CountedIsSortedRcounts(hand);
    if hand == [] {
      CountedTally(hand);
      SumAtLeastLength(Firsts(Counted(hand)));
      assert Counted(hand) == [];
    } else {
      ShapesAgree(hand);
      var pairs := Counted(hand);
      if Classify(hand, Firsts(pairs), Seconds(pairs)).Ok? {
        ClassifyLeadingOne(hand, Firsts(pairs), Seconds(pairs));
        StagesAgree(hand, Classify(hand, Firsts(pairs), Seconds(pairs)).value);
      } else {
        ErrorsAgree(hand);
      }
    }
  }

  /** On one to seven distinct cards the shape branches of both rankers agree. */
  lemma ShapesAgree(hand: seq<string>)
    requires AllCards(hand) && Distinct(hand) && hand != [] && |hand| <= 7
    ensures |Counted(hand)| > 0
    ensures var pairs := Counted(hand);
      var py := Classify(hand, Firsts(pairs), Seconds(pairs));
      var cpp := CppClassify(SetOf(hand), Firsts(pairs), Seconds(pairs));
      (cpp.Ok? <==> py.Ok?) && (py.Ok? ==> cpp == py)
  {
    var pairs := Counted(hand);
    ShapeTestsAgree(hand);
    StraightOrFlushAgrees(hand, Seconds(pairs));
    ClassifyAgreesGiven(hand, Firsts(pairs), Seconds(pairs));
  }

  lemma ShapeTestsAgree(hand: seq<string>)
    requires AllCards(hand) && hand != [] && |hand| <= 7
    ensures |Counted(hand)| > 0
    ensures var score := Firsts(Counted(hand));
      Slice(score, 0, 5) == [2, 2, 2, 1] <==> Take(score, 4) == [2, 2, 2, 1]
  {
    CountedTally(hand);
    ThreePairsTestsAgree(Firsts(Counted(hand)));
  }

  /** When the shape branches fail in both rankers, both scores fail. */
  lemma ErrorsAgree(hand: seq<string>)
    requires AllCards(hand) && |Counted(hand)| > 0
    requires Counted(hand) == SortPairsDesc(Rcounts(SetOf(hand)))
    requires Classify(hand, Firsts(Counted(hand)), Seconds(Counted(hand))).Err?
    requires CppClassify(SetOf(hand), Firsts(Counted(hand)), Seconds(Counted(hand))).Err?
    ensures CppCalcScore(SetOf(hand)).Err? && CalcScore(hand).Err?
  {
  }

  /** Once the shape branches agree on (score, ranks), so do the upgrade and the label. */
  lemma StagesAgree(hand: seq<string>, mid: (seq<int>, seq<int>))
    requires AllCards(hand) && |Counted(hand)| > 0
    requires Counted(hand) == SortPairsDesc(Rcounts(SetOf(hand)))
    requires Classify(hand, Firsts(Counted(hand)), Seconds(Counted(hand))) == Ok(mid)
    requires CppClassify(SetOf(hand), Firsts(Counted(hand)), Seconds(Counted(hand))) == Ok(mid)
    requires mid.0[0] == 1 ==> mid.0 == [1] || mid.0 == Firsts(Counted(hand))
    ensures CppCalcScore(SetOf(hand)) == CalcScore(hand)
  {
    CalcScoreStages(hand, mid);
    assert |Rcounts(SetOf(hand))| > 0 by {
      assert |multiset(Counted(hand))| == |multiset(Rcounts(SetOf(hand)))|;
    }
    CppCalcScoreStages(SetOf(hand), mid);
    TailAgrees(mid.0, Firsts(Counted(hand)), mid.1);
  }

  /** The upgrade and the label agree on a shape result of the kind both rankers produce. */
  lemma TailAgrees(s: seq<int>, shape: seq<int>, cr: seq<int>)
    requires |s| > 0 && |shape| > 0
    requires s[0] == 1 ==> s == [1] || s == shape
    ensures CppFinish(CppUpgrade(s, shape), cr) == Finish(Upgrade(s, shape), cr)
  {
    UpgradeAgrees(s, shape);
    FinishAgrees(Upgrade(s, shape), cr);
  }

  /** The card sets C++ receives for the players: each hand's set with the table's set
      inserted. */
  function CppCombined(playerHands: seq<seq<string>>, tableCards: seq<string>): (r: seq<set<string>>)
    ensures |r| == |playerHands|
    ensures forall i :: 0 <= i < |r| ==> r[i] == SetOf(Combined(playerHands, tableCards)[i])
  {
    var r := CombinedSets(seq(|playerHands|, i requires 0 <= i < |playerHands| => SetOf(playerHands[i])), SetOf(tableCards));
    assert forall i :: 0 <= i < |r| ==> r[i] == SetOf(Combined(playerHands, tableCards)[i]) by {
      forall i | 0 <= i < |r| ensures r[i] == SetOf(Combined(playerHands, tableCards)[i]) {
        assert Combined(playerHands, tableCards)[i] == playerHands[i] + tableCards;
      }
    }
    r
  }

  /** Every player's seven or fewer distinct cards score the same in both rankers. */
  lemma ScoresAgree(hands: seq<seq<string>>, sets: seq<set<string>>)
    requires AllHands(hands) && |sets| == |hands|
    requires forall i :: 0 <= i < |hands| ==> Distinct(hands[i]) && |hands[i]| <= 7 && sets[i] == SetOf(hands[i])
    ensures forall i :: 0 <= i < |hands| ==>
      (CppCalcScore(sets[i]).Ok? <==> CalcScore(hands[i]).Ok?) &&
      (CalcScore(hands[i]).Ok? ==> CppCalcScore(sets[i]) == CalcScore(hands[i]))
  {
    forall i | 0 <= i < |hands|
      ensures CppCalcScore(sets[i]).Ok? <==> CalcScore(hands[i]).Ok?
      ensures CalcScore(hands[i]).Ok? ==> CppCalcScore(sets[i]) == CalcScore(hands[i])
    {
      CalcScoreAgrees(hands[i]);
    }
  }

  /** The C++ `eval_best_hand` answers whether the first player wins: on players whose
      combined cards are at most seven distinct cards it fails exactly when `get_winner`
      fails, and otherwise it says true exactly when `get_winner` names player 0. */
  lemma WinnerAgrees(playerHands: seq<seq<string>>, tableCards: seq<string>)
    requires AllHands(Combined(playerHands, tableCards))
    requires forall i :: 0 <= i < |playerHands| ==>
      Distinct(Combined(playerHands, tableCards)[i]) && |Combined(playerHands, tableCards)[i]| <= 7
    ensures CppEvalBestHand(CppCombined(playerHands, tableCards)).Ok? <==>
      GetWinnerSpec(playerHands, tableCards).Ok?
    ensures GetWinnerSpec(playerHands, tableCards).Ok? ==>
      (CppEvalBestHand(CppCombined(playerHands, tableCards)).value <==>
       GetWinnerSpec(playerHands, tableCards).value.0 == 0)
  {
    WinnerFailuresAgree(playerHands, tableCards);
    if GetWinnerSpec(playerHands, tableCards).Ok? {
      WinnerFirstAgrees(playerHands, tableCards);
    }
  }

  /** Both rankers fail on the same players. */
  lemma WinnerFailuresAgree(playerHands: seq<seq<string>>, tableCards: seq<string>)
    requires AllHands(Combined(playerHands, tableCards))
    requires forall i :: 0 <= i < |playerHands| ==>
      Distinct(Combined(playerHands, tableCards)[i]) && |Combined(playerHands, tableCards)[i]| <= 7
    ensures CppEvalBestHand(CppCombined(playerHands, tableCards)).Ok? <==>
      GetWinnerSpec(playerHands, tableCards).Ok?
  {
    var hands := Combined(playerHands, tableCards);
    var sets := CppCombined(playerHands, tableCards);
    ScoresAgree(hands, sets);
    CppEvalBestHandErrors(sets);
    EvalBestHandErrors(hands);
  }

  /** Where `get_winner` succeeds, `eval_best_hand` says true exactly when it names player 0. */
  lemma WinnerFirstAgrees(playerHands: seq<seq<string>>, tableCards: seq<string>)
    requires AllHands(Combined(playerHands, tableCards))
    requires forall i :: 0 <= i < |playerHands| ==>
      Distinct(Combined(playerHands, tableCards)[i]) && |Combined(playerHands, tableCards)[i]| <= 7
    requires GetWinnerSpec(playerHands, tableCards).Ok? && CppEvalBestHand(CppCombined(playerHands, tableCards)).Ok?
    ensures CppEvalBestHand(CppCombined(playerHands, tableCards)).value <==>
      GetWinnerSpec(playerHands, tableCards).value.0 == 0
  {
    var hands := Combined(playerHands, tableCards);
    var sets := CppCombined(playerHands, tableCards);
    ScoresAgree(hands, sets);
    GetWinnerIsBest(playerHands, tableCards);
    CppEvalBestHandMeaning(sets);
    var w := GetWinnerSpec(playerHands, tableCards).value.0;
    if CppEvalBestHand(sets).value {
      assert BestAt(hands, 0);
      BestAtUnique(hands, 0, w);
    }
  }

}
