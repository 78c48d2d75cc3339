/** The Python hand ranker (tools/hand_evaluator.py): a hand is scored as a
    (count pattern, tie-break ranks, label) triple, and the triples are compared
    lexicographically. */
module HandEvaluator {
  import opened Common
  import opened Cards
  import opened Tuples

  datatype HandType =
    | HighCard | Pair | TwoPair | ThreeOfAKind | Straight | Flush | FullHouse | FourOfAKind | StraightFlush

  /** The label strings the ranker returns, with its own spelling of four of a kind. */
  function Label(t: HandType): string {
    match t
    case HighCard => "HighCard"
    case Pair => "Pair"
    case TwoPair => "TwoPair"
    case ThreeOfAKind => "ThreeOfAKind"
    case Straight => "Straight"
    case Flush => "Flush"
    case FullHouse => "FullHouse"
    case FourOfAKind => "FoufOfAKind"
    case StraightFlush => "StraightFlush"
  }

  datatype Scored = Scored(score: seq<int>, cardRanks: seq<int>, handType: HandType)

  // ---------------------------------------------------------------------------
  // Counting ranks.

  /** `''.join(hand)`. */
  function Join(hand: seq<string>): string {
    if hand == [] then "" else hand[0] + Join(hand[1..])
  }

  /** `s.count(ch)` for a one-character argument. */
  function CountChar(s: string, ch: char): nat {
    if s == [] then 0 else (if s[0] == ch then 1 else 0) + CountChar(s[1..], ch)
  }

  /** The number of cards of rank r: what counting a rank letter in the joined hand means. */
  function RankCount(hand: seq<string>, r: int): (k: nat)
    requires AllCards(hand)
    ensures k <= |hand|
  {
    if hand == [] then 0
    else (if Rank(hand[0]) == r then 1 else 0) + RankCount(hand[1..], r)
  }

  /** The keys of the rank dictionary built over `hand`, in first-appearance order, when the
      keys `seen` were already built from earlier cards. */
  function KeysFrom(hand: seq<string>, seen: seq<int>): (ks: seq<int>)
    requires AllCards(hand)
    ensures forall i :: 0 <= i < |ks| ==> ks[i] in seen || (0 <= ks[i] < 13 && RankCount(hand, ks[i]) > 0)
    ensures forall r :: r in seen ==> r in ks
    ensures forall r :: 0 <= r < 13 && RankCount(hand, r) > 0 ==> r in ks
    ensures Distinct(seen) ==> Distinct(ks)
  {
    if hand == [] then seen
    else KeysFrom(hand[1..], if Rank(hand[0]) in seen then seen else seen + [Rank(hand[0])])
  }

  /** The keys of the rank dictionary: each rank present, once. */
  function RankKeys(hand: seq<string>): (ks: seq<int>)
    requires AllCards(hand)
    ensures forall i :: 0 <= i < |ks| ==> 0 <= ks[i] < 13 && RankCount(hand, ks[i]) > 0
    ensures forall r :: 0 <= r < 13 && RankCount(hand, r) > 0 ==> r in ks
    ensures Distinct(ks)
  {
    KeysFrom(hand, [])
  }

  predicate AllRanks(ks: seq<int>) {
    forall i :: 0 <= i < |ks| ==> 0 <= ks[i] < 13
  }

  /** `(''.join(hand).count(r), find(r))` for the rank letter r of each key. */
  function PairsFor(hand: seq<string>, ks: seq<int>): (ps: seq<(int, int)>)
    requires AllCards(hand) && AllRanks(ks)
    ensures Seconds(ps) == ks
  {
    if ks == [] then [] else [(CountChar(Join(hand), RANKS[ks[0]]), ks[0])] + PairsFor(hand, ks[1..])
  }

  /** The (count, rank) pairs of the rank dictionary, before sorting. */
  function RankPairs(hand: seq<string>): seq<(int, int)>
    requires AllCards(hand)
  {
    PairsFor(hand, RankKeys(hand))
  }

  /** `sorted((cnt, rank) for rank, cnt in rcounts)[::-1]`. */
  function Counted(hand: seq<string>): seq<(int, int)>
    requires AllCards(hand)
  {
    SortPairsDesc(RankPairs(hand))
  }

  // ---------------------------------------------------------------------------
  // Straights and flushes.

  /** `for i in range(len(s) - 4): straight = s[i] - s[i + 4] == 4; if straight: break`, started
      at i with `straight` holding its value before the loop. Gives the value `straight` has
      after the loop and the index of the window found, or -1. */
  function ScanStraight(s: seq<int>, i: nat, straight: bool): (r: (bool, int))
    ensures r.1 == -1 || (i <= r.1 && r.1 + 4 < |s| && s[r.1] - s[r.1 + 4] == 4)
    ensures r.1 >= 0 ==> forall k :: i <= k < r.1 ==> s[k] - s[k + 4] != 4
    ensures r.1 == -1 ==> forall k :: i <= k && k + 4 < |s| ==> s[k] - s[k + 4] != 4
    ensures r.0 <==> r.1 >= 0 || (i + 4 >= |s| && straight)
    decreases |s| - i
  {
    if i + 4 >= |s| then (straight, -1)
    else if s[i] - s[i + 4] == 4 then (true, i)
    else ScanStraight(s, i + 1, false)
  }

  /** `[s for _, s in hand]`, joined into a string. */
  function SuitChars(hand: seq<string>): (s: string)
    requires AllCards(hand)
    ensures |s| == |hand| && forall i :: 0 <= i < |hand| ==> IsCard(hand[i]) && s[i] == hand[i][1]
  {
    if hand == [] then "" else [hand[0][1]] + SuitChars(hand[1..])
  }

  /** `max(suits.count(s) for s in xs)`, 0 for no xs. */
  function MaxSuitCount(suits: string, xs: string): nat {
    if xs == [] then 0
    else
      var c := CountChar(suits, xs[0]);
      var m := MaxSuitCount(suits, xs[1..]);
      if c >= m then c else m
  }

  function HasFlush(hand: seq<string>): bool
    requires AllCards(hand)
  {
    var suits := SuitChars(hand);
    MaxSuitCount(suits, suits) >= 5
  }

  /** The loop over "CDHS" stopping at the first suit with at least 5 cards; when none has,
      the loop variable is left at the last suit. */
  function FlushSuit(hand: seq<string>, k: nat): char
    requires AllCards(hand) && k < 4
    decreases 4 - k
  {
    if k == 3 || CountChar(SuitChars(hand), SUITS[k]) >= 5 then SUITS[k] else FlushSuit(hand, k + 1)
  }

  /** `[k for k in hand if flush_suit in k]`. */
  function FlushHand(hand: seq<string>, suit: char): (fh: seq<string>)
    ensures forall c :: c in fh ==> c in hand && suit in c
    ensures forall c :: c in hand && suit in c ==> c in fh
  {
    if hand == [] then []
    else
      var fh := FlushHand(hand[1..], suit);
      if suit in hand[0] then [hand[0]] + fh else fh
  }

  /** `card_ranks + (-1,)` when an ace is present: the ace also plays low. */
  function AceLow(cr: seq<int>): seq<int> {
    if 12 in cr then cr + [-1] else cr
  }

  /** The branch for five or more distinct ranks: high card, straight, flush or straight
      flush, before the shape upgrade. Gives the score and the tie-break ranks. */
  function StraightOrFlush(hand: seq<string>, cardRanks: seq<int>): (seq<int>, seq<int>)
    requires AllCards(hand)
  {
    var cr1 := AceLow(cardRanks);
    var sorted := SortIntsDesc(cr1);
    var scan := ScanStraight(sorted, 0, false);
    var cr2 := if scan.1 >= 0 then sorted[scan.1..scan.1 + 5] else cr1;
    if !HasFlush(hand) then
      (if scan.0 then [3, 1, 2] else [1], cr2)
    else
      var fh := FlushHand(hand, FlushSuit(hand, 0));
      assert AllCards(fh) by {
        forall i | 0 <= i < |fh| ensures IsCard(fh[i]) {
          assert fh[i] in fh;
          var j :| 0 <= j < |hand| && hand[j] == fh[i];
        }
      }
      var fr := SortIntsDesc(Seconds(Counted(fh)));
      var fr2 := if 12 in fr && -1 !in fr then fr + [-1] else fr;
      var scan2 := ScanStraight(fr2, 0, scan.0);
      (if scan2.0 then [5] else [3, 1, 3], fr2)
  }

  // ---------------------------------------------------------------------------
  // The score.

  /** The four special-shape branches (full house, three pairs, four of a kind, five or more
      ranks); any other shape keeps its counts and ranks. */
  function Classify(hand: seq<string>, score: seq<int>, cr: seq<int>): (r: Result<(seq<int>, seq<int>)>)
    requires AllCards(hand) && |score| > 0 && |score| == |cr|
    ensures r.Ok? ==> |r.value.0| > 0
  {
    if Take(score, 2) == [3, 2] || Take(score, 2) == [3, 3] then Ok(([3, 2], [cr[0], cr[1]]))
    else if Take(score, 4) == [2, 2, 2, 1] then Ok(([2, 2, 1], [cr[0], cr[1], MaxInt(cr[2], cr[3])]))
    else if score[0] == 4 then
      var sorted := SortIntsDesc(cr);
      if |sorted| < 2 then Err(IndexError) else Ok(([4], [sorted[0], sorted[1]]))
    else if |score| >= 5 then Ok(StraightOrFlush(hand, cr))
    else Ok((score, cr))
  }

  /** A bare high card is re-read by the original count shape: trips, two pair or a pair among
      seven cards. */
  function Upgrade(score: seq<int>, shape: seq<int>): seq<int>
    requires |shape| > 0
  {
    if score == [1] && shape[0] == 3 then [3, 1]
    else if score == [1] && shape == [2, 2, 1, 1, 1] then [2, 2, 1]
    else if score == [1] && shape == [2, 1, 1, 1, 1, 1] then [2, 1, 1]
    else score
  }

  /** The label chosen by the score, and where the tie-break ranks are cut. */
  function Finish(score: seq<int>, cr: seq<int>): Result<Scored>
    requires |score| > 0
  {
    if score[0] == 5 then Ok(Scored(score, cr, StraightFlush))
    else if score[0] == 4 then Ok(Scored(score, cr, FourOfAKind))
    else if Take(score, 2) == [3, 2] then Ok(Scored(score, cr, FullHouse))
    else if Take(score, 3) == [3, 1, 3] then Ok(Scored(score, Take(cr, 5), Flush))
    else if Take(score, 3) == [3, 1, 2] then Ok(Scored(score, Take(cr, 5), Straight))
    else if Take(score, 2) == [3, 1] then Ok(Scored(score, Take(cr, 3), ThreeOfAKind))
    else if Take(score, 2) == [2, 2] then Ok(Scored(score, Take(cr, 3), TwoPair))
    else if score[0] == 2 then Ok(Scored(score, Take(cr, 4), Pair))
    else if score[0] == 1 then Ok(Scored(score, Take(cr, 5), HighCard))
    else Err(CardTypeError)
  }

  /** `_calc_score`. With no cards there are no (count, rank) pairs to unzip (ValueError). */
  function CalcScore(hand: seq<string>): Result<Scored>
    requires AllCards(hand)
  {
    var pairs := Counted(hand);
    if pairs == [] then Err(ValueError)
    else
      var score := Firsts(pairs);
      var mid :- Classify(hand, score, Seconds(pairs));
      Finish(Upgrade(mid.0, score), mid.1)
  }

  /** CalcScore in two stages: the shape branches, then the upgrade and the label. */
  lemma CalcScoreStages(hand: seq<string>, mid: (seq<int>, seq<int>))
    requires AllCards(hand) && |Counted(hand)| > 0
    requires Classify(hand, Firsts(Counted(hand)), Seconds(Counted(hand))) == Ok(mid)
    ensures CalcScore(hand) == Finish(Upgrade(mid.0, Firsts(Counted(hand))), mid.1)
  {
  }


  // ---------------------------------------------------------------------------
  // What the counts mean.

  lemma {:induction false} CountCharConcat(a: string, b: string, ch: char)
    ensures CountChar(a + b, ch) == CountChar(a, ch) + CountChar(b, ch)
  {
    if a == [] {
      assert a + b == b;
    } else {
      assert (a + b)[1..] == a[1..] + b;
      CountCharConcat(a[1..], b, ch);
    }
  }

  /** A card holds the letter of rank r exactly when it has rank r: its suit letter is never
      a rank letter. */
  lemma CardCountsRank(c: string, r: int)
    requires IsCard(c) && 0 <= r < 13
    ensures CountChar(c, RANKS[r]) == if Rank(c) == r then 1 else 0
  {
    RanksDistinct();
    RanksAndSuitsDisjoint();
    var ch := RANKS[r];
    assert c[1] != ch;
    assert c[0] == ch <==> Rank(c) == r;
    assert c[1..][1..] == [];
    assert CountChar(c[1..], ch) == 0;
    assert CountChar(c, ch) == (if c[0] == ch then 1 else 0) + CountChar(c[1..], ch);
  }

  /** Counting a rank letter in the joined hand counts the cards of that rank. */
  lemma {:induction false} JoinCountsRank(hand: seq<string>, r: int)
    requires AllCards(hand) && 0 <= r < 13
    ensures CountChar(Join(hand), RANKS[r]) == RankCount(hand, r)
  {
    if hand != [] {
      CountCharConcat(hand[0], Join(hand[1..]), RANKS[r]);
      CardCountsRank(hand[0], r);
      JoinCountsRank(hand[1..], r);
    }
  }

  lemma {:induction false} PairsForCounts(hand: seq<string>, ks: seq<int>)
    requires AllCards(hand) && AllRanks(ks)
    ensures |PairsFor(hand, ks)| == |ks|
    ensures forall i :: 0 <= i < |ks| ==> PairsFor(hand, ks)[i] == (RankCount(hand, ks[i]), ks[i])
    ensures SumInts(Firsts(PairsFor(hand, ks))) == CountSum(hand, ks)
  {
    if ks != [] {
      JoinCountsRank(hand, ks[0]);
      PairsForCounts(hand, ks[1..]);
    }
  }

  /** The total number of cards of the ranks in ks. */
  function CountSum(hand: seq<string>, ks: seq<int>): int
    requires AllCards(hand)
  {
    if ks == [] then 0 else RankCount(hand, ks[0]) + CountSum(hand, ks[1..])
  }

  /** How often x occurs in s. */
  function Occ(s: seq<int>, x: int): (k: nat)
    ensures k == 0 <==> x !in s
  {
    if s == [] then 0 else (if s[0] == x then 1 else 0) + Occ(s[1..], x)
  }

  lemma {:induction false} OccDistinct(s: seq<int>, x: int)
    requires Distinct(s) && x in s
    ensures Occ(s, x) == 1
  {
    if s[0] != x {
      OccDistinct(s[1..], x);
    } else {
      assert x !in s[1..];
    }
  }

  lemma {:induction false} CountSumNil(ks: seq<int>)
    ensures CountSum([], ks) == 0
  {
    if ks != [] {
      CountSumNil(ks[1..]);
    }
  }

  lemma {:induction false} CountSumSplit(hand: seq<string>, ks: seq<int>)
    requires AllCards(hand) && hand != []
    ensures CountSum(hand, ks) == Occ(ks, Rank(hand[0])) + CountSum(hand[1..], ks)
  {
    if ks != [] {
      CountSumSplit(hand, ks[1..]);
    }
  }

  /** Over distinct keys that cover every rank present, the counts add up to the hand size. */
  lemma {:induction false} CountSumAll(hand: seq<string>, ks: seq<int>)
    requires AllCards(hand) && Distinct(ks)
    requires forall r :: 0 <= r < 13 && RankCount(hand, r) > 0 ==> r in ks
    ensures CountSum(hand, ks) == |hand|
  {
    if hand == [] {
      CountSumNil(ks);
    } else {
      var r := Rank(hand[0]);
      assert RankCount(hand, r) > 0;
      OccDistinct(ks, r);
      CountSumSplit(hand, ks);
      forall q | 0 <= q < 13 && RankCount(hand[1..], q) > 0
        ensures q in ks
      {
        assert RankCount(hand, q) > 0;
      }
      CountSumAll(hand[1..], ks);
    }
  }

  /** ps lists each rank present in the hand exactly once, paired with its number of cards. */
  ghost predicate RankTally(hand: seq<string>, ps: seq<(int, int)>)
    requires AllCards(hand)
  {
    && (forall i :: 0 <= i < |ps| ==> 0 <= ps[i].1 < 13 && ps[i].0 == RankCount(hand, ps[i].1) > 0)
    && (forall r :: 0 <= r < 13 && RankCount(hand, r) > 0 ==> r in Seconds(ps))
    && Distinct(Seconds(ps))
  }

  lemma RankPairsTally(hand: seq<string>)
    requires AllCards(hand)
    ensures RankTally(hand, RankPairs(hand)) && Distinct(RankPairs(hand))
    ensures SumInts(Firsts(RankPairs(hand))) == |hand|
  {
    var ks := RankKeys(hand);
    var rp := RankPairs(hand);
    PairsForCounts(hand, ks);
    CountSumAll(hand, ks);
    forall i, j | 0 <= i < j < |rp| ensures rp[i] != rp[j] {
      assert Seconds(rp)[i] != Seconds(rp)[j];
    }
  }

  /** A tally stays a tally when its pairs are rearranged. */
  lemma TallySameElements(hand: seq<string>, a: seq<(int, int)>, b: seq<(int, int)>)
    requires AllCards(hand) && RankTally(hand, a) && Distinct(a) && multiset(a) == multiset(b)
    ensures RankTally(hand, b)
  {
    TallyPairsKept(hand, a, b);
    TallyRanksKept(hand, a, b);
    DistinctSameElements(a, b);
    DistinctPairsSeconds(b);
  }

  lemma TallyPairsKept(hand: seq<string>, a: seq<(int, int)>, b: seq<(int, int)>)
    requires AllCards(hand) && RankTally(hand, a) && multiset(a) == multiset(b)
    ensures forall i :: 0 <= i < |b| ==> 0 <= b[i].1 < 13 && b[i].0 == RankCount(hand, b[i].1) > 0
  {
    forall i | 0 <= i < |b|
      ensures 0 <= b[i].1 < 13 && b[i].0 == RankCount(hand, b[i].1) > 0
    {
      assert b[i] in multiset(a);
      var j :| 0 <= j < |a| && a[j] == b[i];
    }
  }

  lemma TallyRanksKept(hand: seq<string>, a: seq<(int, int)>, b: seq<(int, int)>)
    requires AllCards(hand) && RankTally(hand, a) && multiset(a) == multiset(b)
    ensures forall r :: 0 <= r < 13 && RankCount(hand, r) > 0 ==> r in Seconds(b)
  {
    forall r | 0 <= r < 13 && RankCount(hand, r) > 0
      ensures r in Seconds(b)
    {
      var j :| 0 <= j < |a| && Seconds(a)[j] == r;
      assert a[j] in multiset(b);
      var i :| 0 <= i < |b| && b[i] == a[j];
      assert Seconds(b)[i] == r;
    }
  }

  /** Distinct pairs whose ranks agree with their counts carry distinct ranks. */
  lemma DistinctPairsSeconds(b: seq<(int, int)>)
    requires Distinct(b)
    requires forall i, j :: 0 <= i < |b| && 0 <= j < |b| && b[i].1 == b[j].1 ==> b[i].0 == b[j].0
    ensures Distinct(Seconds(b))
  {
    forall i, j | 0 <= i < j < |b|
      ensures Seconds(b)[i] != Seconds(b)[j]
    {
      assert b[i] != b[j];
    }
  }

  /** The sorted (count, rank) pairs tally the hand: one pair per rank present, in descending
      (count, rank) order, and the counts add up to the number of cards. */
  lemma CountedTally(hand: seq<string>)
    requires AllCards(hand)
    ensures PairsDesc(Counted(hand)) && RankTally(hand, Counted(hand))
    ensures SumInts(Firsts(Counted(hand))) == |hand|
  {
    RankPairsTally(hand);
    TallySameElements(hand, RankPairs(hand), Counted(hand));
  }

  // ---------------------------------------------------------------------------
  // Distinct cards.

  /** The cards of rank r in the hand. */
  ghost function CardsOfRank(hand: seq<string>, r: int): set<string> {
    set c | c in hand && IsCard(c) && Rank(c) == r
  }

  lemma {:induction false} RankCountIsCards(hand: seq<string>, r: int)
    requires AllCards(hand) && Distinct(hand)
    ensures RankCount(hand, r) == |CardsOfRank(hand, r)|
  {
    if hand == [] {
      assert CardsOfRank(hand, r) == {};
    } else {
      RankCountIsCards(hand[1..], r);
      assert hand[0] !in hand[1..];
      if Rank(hand[0]) == r {
        assert CardsOfRank(hand, r) == CardsOfRank(hand[1..], r) + {hand[0]};
      } else {
        assert CardsOfRank(hand, r) == CardsOfRank(hand[1..], r);
      }
    }
  }

  /** Among distinct cards no rank occurs more than four times: there are four suits. */
  lemma RankCountAtMostFour(hand: seq<string>, r: int)
    requires AllCards(hand) && Distinct(hand)
    ensures RankCount(hand, r) <= 4
  {
    RankCountIsCards(hand, r);
    if 0 <= r < 13 {
      var all := {CardOf(r, 0), CardOf(r, 1), CardOf(r, 2), CardOf(r, 3)};
      forall c | c in CardsOfRank(hand, r) ensures c in all {
        CardOfRankSuit(c);
      }
      assert CardsOfRank(hand, r) <= all;
      assert |all| <= 4;
      SubsetSize(CardsOfRank(hand, r), all);
    } else {
      assert CardsOfRank(hand, r) == {};
    }
  }


  // ---------------------------------------------------------------------------
  // Seven distinct cards.

  /** The count patterns seven distinct cards can show: non-increasing, each between 1 and 4,
      adding up to 7. Which branch of the ranker each one reaches. */
  lemma SevenShapes(sc: seq<int>)
    requires IntsDesc(sc) && SumInts(sc) == 7
    requires forall i :: 0 <= i < |sc| ==> 1 <= sc[i] <= 4
    ensures |sc| >= 2
    ensures sc[0] == 3 ==> sc[1] >= 2 || sc == [3, 1, 1, 1, 1]
    ensures sc[0] == 2 ==> sc == [2, 2, 2, 1] || sc == [2, 2, 1, 1, 1] || sc == [2, 1, 1, 1, 1, 1]
    ensures sc[0] == 1 ==> |sc| == 7
  {
    assert sc != [];
    assert SumInts(sc) == sc[0] + SumInts(sc[1..]);
    SumAtLeastLength(sc);
    if sc[0] == 1 {
      SumAtMostLength(sc);
    }
    if sc[0] <= 3 && sc[1] == 1 {
      SevenShapesSingles(sc);
    }
    if sc[0] == 2 && sc[1] == 2 {
      SevenShapesTwoPairs(sc);
    }
  }

  /** A top count of at most three followed by a single: all the rest are singles. */
  lemma SevenShapesSingles(sc: seq<int>)
    requires IntsDesc(sc) && SumInts(sc) == 7 && |sc| >= 2
    requires forall i :: 0 <= i < |sc| ==> 1 <= sc[i] <= 4
    requires sc[0] <= 3 && sc[1] == 1
    ensures sc[0] == 3 ==> sc == [3, 1, 1, 1, 1]
    ensures sc[0] == 2 ==> sc == [2, 1, 1, 1, 1, 1]
  {
    var t := sc[1..];
    assert SumInts(sc) == sc[0] + SumInts(t);
    SumAtMostLength(t);
    SumAtLeastLength(t);
    assert |t| == 7 - sc[0];
    assert forall i :: 0 <= i < |sc| ==> sc[i] == (if i == 0 then sc[0] else 1);
    if sc[0] == 3 {
      assert sc == [3, 1, 1, 1, 1];
    } else if sc[0] == 2 {
      assert sc == [2, 1, 1, 1, 1, 1];
    }
  }

  /** Two pairs on top: a third pair and a single, or three singles. */
  lemma SevenShapesTwoPairs(sc: seq<int>)
    requires IntsDesc(sc) && SumInts(sc) == 7 && |sc| >= 2
    requires forall i :: 0 <= i < |sc| ==> 1 <= sc[i] <= 4
    requires sc[0] == 2 && sc[1] == 2
    ensures sc == [2, 2, 2, 1] || sc == [2, 2, 1, 1, 1]
  {
    var t := sc[1..];
    assert SumInts(sc) == 2 + SumInts(t);
    var u := t[1..];
    assert SumInts(t) == 2 + SumInts(u);
    assert |u| > 0;
    assert u[0] == sc[2];
    if sc[2] == 1 {
      SumAtMostLength(u);
      SumAtLeastLength(u);
      assert |u| == 3;
      assert sc == [2, 2, 1, 1, 1];
    } else {
      assert sc[2] == 2 by {
        assert sc[1] >= sc[2] >= 1;
      }
      var w := u[1..];
      assert SumInts(u) == 2 + SumInts(w);
      assert SumInts(w) == 1;
      assert forall i :: 0 <= i < |w| ==> w[i] == sc[i + 3];
      SumAtLeastLength(w);
      assert |w| == 1;
      assert w[1..] == [];
      assert SumInts(w) == w[0];
      assert |sc| == 4 && sc[3] == w[0] == 1;
      assert sc == [2, 2, 2, 1];
    }
  }

  // ---------------------------------------------------------------------------
  // Flushes.

  lemma {:induction false} MaxSuitCountWitness(suits: string, xs: string)
    requires MaxSuitCount(suits, xs) > 0
    ensures exists k :: 0 <= k < |xs| && CountChar(suits, xs[k]) == MaxSuitCount(suits, xs)
  {
    if CountChar(suits, xs[0]) < MaxSuitCount(suits, xs[1..]) {
      MaxSuitCountWitness(suits, xs[1..]);
      var k :| 0 <= k < |xs[1..]| && CountChar(suits, xs[1..][k]) == MaxSuitCount(suits, xs[1..]);
      assert xs[k + 1] == xs[1..][k];
    }
  }

  /** The suit loop stops at a suit that has at least five cards, if any suit from k on has. */
  lemma {:induction false} FlushSuitHasFive(hand: seq<string>, k: nat, j: nat)
    requires AllCards(hand) && k <= j < 4 && CountChar(SuitChars(hand), SUITS[j]) >= 5
    ensures CountChar(SuitChars(hand), FlushSuit(hand, k)) >= 5
    decreases 4 - k
  {
    if k < 3 && CountChar(SuitChars(hand), SUITS[k]) < 5 {
      FlushSuitHasFive(hand, k + 1, j);
    }
  }

  /** A hand that passes the flush test has a suit with five cards, and the loop finds one. */
  lemma FlushSuitFound(hand: seq<string>)
    requires AllCards(hand) && HasFlush(hand)
    ensures CountChar(SuitChars(hand), FlushSuit(hand, 0)) >= 5
  {
    var suits := SuitChars(hand);
    MaxSuitCountWitness(suits, suits);
    var k :| 0 <= k < |suits| && CountChar(suits, suits[k]) == MaxSuitCount(suits, suits);
    assert IsCard(hand[k]);
    FlushSuitHasFive(hand, 0, Suit(hand[k]));
  }

  /** The flush hand holds the cards of that suit: as many as the suit count, each once. */
  lemma FlushHandFacts(hand: seq<string>, suit: char)
    requires AllCards(hand) && suit in SUITS
    ensures AllCards(FlushHand(hand, suit))
    ensures |FlushHand(hand, suit)| == CountChar(SuitChars(hand), suit)
    ensures forall i :: 0 <= i < |FlushHand(hand, suit)| ==> FlushHand(hand, suit)[i][1] == suit
    ensures Distinct(hand) ==> Distinct(FlushHand(hand, suit))
  {
    FlushHandCounts(hand, suit);
    if Distinct(hand) {
      FlushHandDistinct(hand, suit);
    }
    var fh := FlushHand(hand, suit);
    forall i | 0 <= i < |fh| ensures fh[i][1] == suit {
      assert fh[i] in fh;
      SuitLetterIn(fh[i], suit);
    }
  }

  /** The flush hand holds cards only, as many as the suit count. */
  lemma {:induction false} FlushHandCounts(hand: seq<string>, suit: char)
    requires AllCards(hand) && suit in SUITS
    ensures AllCards(FlushHand(hand, suit))
    ensures |FlushHand(hand, suit)| == CountChar(SuitChars(hand), suit)
  {
    if hand != [] {
      FlushHandCounts(hand[1..], suit);
      SuitLetterIn(hand[0], suit);
      assert SuitChars(hand) == [hand[0][1]] + SuitChars(hand[1..]);
    }
  }

  /** Filtering a hand of distinct cards keeps them distinct. */
  lemma {:induction false} FlushHandDistinct(hand: seq<string>, suit: char)
    requires Distinct(hand)
    ensures Distinct(FlushHand(hand, suit))
  {
    if hand != [] {
      assert Distinct(hand[1..]);
      FlushHandDistinct(hand[1..], suit);
      assert hand[0] !in hand[1..];
    }
  }

  /** A suit letter occurs in a card exactly as its second character. */
  lemma SuitLetterIn(c: string, suit: char)
    requires IsCard(c) && suit in SUITS
    ensures suit in c <==> c[1] == suit
  {
    RanksAndSuitsDisjoint();
    assert c[0] in RANKS;
    assert c == [c[0], c[1]];
  }

  /** Distinct cards of one suit have distinct ranks. */
  lemma SuitedRankCountAtMostOne(fh: seq<string>, suit: char, r: int)
    requires AllCards(fh) && Distinct(fh) && suit in SUITS
    requires forall i :: 0 <= i < |fh| ==> fh[i][1] == suit
    ensures RankCount(fh, r) <= 1
  {
    RankCountIsCards(fh, r);
    if 0 <= r < 13 {
      var only := {CardOf(r, Find(SUITS, suit))};
      forall c | c in CardsOfRank(fh, r) ensures c in only {
        CardOfRankSuit(c);
      }
      SubsetSize(CardsOfRank(fh, r), only);
    } else {
      assert CardsOfRank(fh, r) == {};
    }
  }

  /** The flush suit of distinct cards shows at least five ranks. */
  lemma FlushRanks(hand: seq<string>)
    requires AllCards(hand) && Distinct(hand) && HasFlush(hand)
    ensures AllCards(FlushHand(hand, FlushSuit(hand, 0)))
    ensures |Counted(FlushHand(hand, FlushSuit(hand, 0)))| >= 5
  {
    var fs := FlushSuit(hand, 0);
    FlushSuitFound(hand);
    assert fs in SUITS;
    var fh := FlushHand(hand, fs);
    FlushHandFacts(hand, fs);
    CountedTally(fh);
    var ps := Counted(fh);
    forall i | 0 <= i < |Firsts(ps)| ensures Firsts(ps)[i] <= 1 {
      SuitedRankCountAtMostOne(fh, fs, ps[i].1);
    }
    SumAtMostLength(Firsts(ps));
  }

  /** The outcome of the five-or-more-ranks branch: a bare high card keeping the ranks (with
      the low ace), a straight with its five-rank window, or a flush or straight flush with
      at least five ranks. */
  lemma StraightOrFlushShape(hand: seq<string>, cardRanks: seq<int>)
    requires AllCards(hand) && Distinct(hand) && |cardRanks| >= 5
    ensures var r := StraightOrFlush(hand, cardRanks);
      || (r.0 == [1] && r.1 == AceLow(cardRanks))
      || (r.0 == [3, 1, 2] && |r.1| == 5)
      || ((r.0 == [3, 1, 3] || r.0 == [5]) && |r.1| >= 5)
  {
    var cr1 := AceLow(cardRanks);
    var sorted := SortIntsDesc(cr1);
    assert |sorted| == |cr1| >= 5 by {
      assert |multiset(sorted)| == |multiset(cr1)|;
    }
    var scan := ScanStraight(sorted, 0, false);
    assert scan.0 <==> scan.1 >= 0;
    if HasFlush(hand) {
      FlushRanks(hand);
      var fh := FlushHand(hand, FlushSuit(hand, 0));
      var fr := SortIntsDesc(Seconds(Counted(fh)));
      assert |fr| == |Seconds(Counted(fh))| by {
        assert |multiset(fr)| == |multiset(Seconds(Counted(fh)))|;
      }
      var fr2 := if 12 in fr && -1 !in fr then fr + [-1] else fr;
      var scan2 := ScanStraight(fr2, 0, scan.0);
      assert StraightOrFlush(hand, cardRanks) == (if scan2.0 then [5] else [3, 1, 3], fr2);
    } else {
      var cr2 := if scan.1 >= 0 then sorted[scan.1..scan.1 + 5] else cr1;
      assert StraightOrFlush(hand, cardRanks) == (if scan.0 then [3, 1, 2] else [1], cr2);
    }
  }

  // ---------------------------------------------------------------------------
  // The nine categories of seven-card hands.

  /** The position of a hand type in the ranking, from high card (0) to straight flush (8). */
  function Strength(t: HandType): (k: nat)
    ensures k < 9
  {
    match t
    case HighCard => 0
    case Pair => 1
    case TwoPair => 2
    case ThreeOfAKind => 3
    case Straight => 4
    case Flush => 5
    case FullHouse => 6
    case FourOfAKind => 7
    case StraightFlush => 8
  }

  /** The final score of each hand type among seven cards, weakest first. */
  const FinalScores: seq<seq<int>> := [[1], [2, 1, 1], [2, 2, 1], [3, 1], [3, 1, 2], [3, 1, 3], [3, 2], [4], [5]]

  /** How many tie-break ranks each hand type below a straight flush keeps. */
  const TieBreakLengths: seq<nat> := [5, 4, 3, 3, 5, 5, 2, 2]

  /** The final scores climb strictly with the hand type. */
  lemma FinalScoresIncrease()
    ensures forall i, j :: 0 <= i < j < 9 ==> Lt(FinalScores[i], FinalScores[j])
  {
  }

  /** s is one of the nine categories, with the tie-break ranks cut to the label's length. */
  predicate Categorised(s: Scored) {
    && s.score == FinalScores[Strength(s.handType)]
    && (s.handType != StraightFlush ==> |s.cardRanks| == TieBreakLengths[Strength(s.handType)])
    && (s.handType == StraightFlush ==> |s.cardRanks| >= 5)
  }

  /** What the shape branches leave for seven distinct cards, given their count pattern sc. */
  predicate SevenCardMiddle(sc: seq<int>, mid: (seq<int>, seq<int>)) {
    && |sc| > 0
    && (|| (mid.0 == [4] && |mid.1| == 2)
        || (mid.0 == [3, 2] && |mid.1| == 2)
        || (mid.0 == [2, 2, 1] && |mid.1| == 3)
        || (mid.0 == [1] && |mid.1| >= |sc| >= 5
            && (sc == [3, 1, 1, 1, 1] || sc == [2, 2, 1, 1, 1] || sc == [2, 1, 1, 1, 1, 1] || (sc[0] == 1 && |sc| == 7)))
        || (mid.0 == [3, 1, 2] && |mid.1| == 5)
        || ((mid.0 == [3, 1, 3] || mid.0 == [5]) && |mid.1| >= 5))
  }

  lemma FinishSeven(sc: seq<int>, mid: (seq<int>, seq<int>))
    requires SevenCardMiddle(sc, mid)
    ensures Finish(Upgrade(mid.0, sc), mid.1).Ok?
    ensures Categorised(Finish(Upgrade(mid.0, sc), mid.1).value)
  {
    var up := Upgrade(mid.0, sc);
    if mid.0 == [1] {
      if sc == [3, 1, 1, 1, 1] {
        assert up == [3, 1];
      } else if sc == [2, 2, 1, 1, 1] {
        assert up == [2, 2, 1];
      } else if sc == [2, 1, 1, 1, 1, 1] {
        assert up == [2, 1, 1];
      } else {
        assert up == [1];
      }
    } else {
      assert up == mid.0;
      if mid.0 == [4] {
        assert Finish(up, mid.1) == Ok(Scored([4], mid.1, FourOfAKind));
      } else if mid.0 == [3, 2] {
        assert Finish(up, mid.1) == Ok(Scored([3, 2], mid.1, FullHouse));
      } else if mid.0 == [2, 2, 1] {
        assert Take(up, 3) == [2, 2, 1] && Take(up, 2) == [2, 2];
        assert Finish(up, mid.1) == Ok(Scored([2, 2, 1], Take(mid.1, 3), TwoPair));
      } else if mid.0 == [3, 1, 2] {
        assert Take(up, 3) == [3, 1, 2] && Take(up, 2) == [3, 1];
        assert Finish(up, mid.1) == Ok(Scored([3, 1, 2], Take(mid.1, 5), Straight));
      } else if mid.0 == [3, 1, 3] {
        assert Take(up, 3) == [3, 1, 3] && Take(up, 2) == [3, 1];
        assert Finish(up, mid.1) == Ok(Scored([3, 1, 3], Take(mid.1, 5), Flush));
      } else {
        assert Finish(up, mid.1) == Ok(Scored([5], mid.1, StraightFlush));
      }
    }
  }

  /** The count pattern of seven distinct cards: non-increasing, each count between 1 and 4,
      adding up to 7. */
  lemma SevenCountPattern(hand: seq<string>)
    requires AllCards(hand) && Distinct(hand) && |hand| == 7
    ensures var sc := Firsts(Counted(hand));
      IntsDesc(sc) && SumInts(sc) == 7 && forall i :: 0 <= i < |sc| ==> 1 <= sc[i] <= 4
  {
    var ps := Counted(hand);
    var sc := Firsts(ps);
    CountedTally(hand);
    forall i | 0 <= i < |sc|
      ensures 1 <= sc[i] <= 4
    {
      RankCountAtMostFour(hand, ps[i].1);
    }
    forall i, j | 0 <= i < j < |sc| ensures sc[i] >= sc[j] {
      assert PairGe(ps[i], ps[j]);
    }
  }

  /** The shape branches on the count patterns seven distinct cards can show. */
  lemma ClassifySevenShapes(hand: seq<string>, sc: seq<int>, cr: seq<int>)
    requires AllCards(hand) && Distinct(hand) && |sc| == |cr| >= 2
    requires 1 <= sc[0] <= 4
    requires sc[0] == 3 ==> sc[1] >= 2 || sc == [3, 1, 1, 1, 1]
    requires sc[0] == 2 ==> sc == [2, 2, 2, 1] || sc == [2, 2, 1, 1, 1] || sc == [2, 1, 1, 1, 1, 1]
    requires sc[0] == 1 ==> |sc| == 7
    requires sc[0] == 3 ==> sc[1] <= 3
    ensures Classify(hand, sc, cr).Ok? && SevenCardMiddle(sc, Classify(hand, sc, cr).value)
  {
    if sc[0] == 4 {
      var sorted := SortIntsDesc(cr);
      assert |multiset(sorted)| == |multiset(cr)|;
      assert Classify(hand, sc, cr) == Ok(([4], [sorted[0], sorted[1]]));
    } else if sc[0] == 3 && sc[1] >= 2 {
      assert Take(sc, 2) == [3, 2] || Take(sc, 2) == [3, 3];
    } else if sc == [2, 2, 2, 1] {
      assert Classify(hand, sc, cr) == Ok(([2, 2, 1], [cr[0], cr[1], MaxInt(cr[2], cr[3])]));
    } else {
      assert |sc| >= 5;
      assert Take(sc, 2) != [3, 2] && Take(sc, 2) != [3, 3];
      assert Take(sc, 4) != [2, 2, 2, 1] by {
        assert Take(sc, 4)[0] == sc[0] && Take(sc, 4)[2] == sc[2];
      }
      ClassifyFallsThrough(hand, sc, cr);
      StraightOrFlushShape(hand, cr);
    }
  }

  /** Seven distinct cards always get a score: one of the nine final scores, matching the
      label, with the tie-break ranks cut to the label's length. */
  lemma SevenCardCategories(hand: seq<string>)
    requires AllCards(hand) && Distinct(hand) && |hand| == 7
    ensures CalcScore(hand).Ok? && Categorised(CalcScore(hand).value)
  {
    var sc := Firsts(Counted(hand));
    var cr := Seconds(Counted(hand));
    SevenCountPattern(hand);
    SevenShapes(sc);
    ClassifySevenShapes(hand, sc, cr);
    var mid := Classify(hand, sc, cr).value;
    FinishSeven(sc, mid);
    CalcScoreStages(hand, mid);
  }

  // ---------------------------------------------------------------------------
  // Full house, three pairs, four of a kind.

  lemma ClassifyFullHouse(hand: seq<string>, sc: seq<int>, cr: seq<int>)
    requires AllCards(hand) && |sc| == |cr| >= 2 && sc[0] == 3 && 2 <= sc[1] <= 3
    ensures Classify(hand, sc, cr) == Ok(([3, 2], [cr[0], cr[1]]))
    ensures Finish(Upgrade([3, 2], sc), [cr[0], cr[1]]) == Ok(Scored([3, 2], [cr[0], cr[1]], FullHouse))
  {
    assert Take(sc, 2) == [3, 2] || Take(sc, 2) == [3, 3];
    assert Upgrade([3, 2], sc) == [3, 2];
    assert Take([3, 2], 2) == [3, 2];
  }

  lemma ClassifyThreePairs(hand: seq<string>, sc: seq<int>, cr: seq<int>)
    requires AllCards(hand) && |sc| == |cr| >= 4 && Take(sc, 4) == [2, 2, 2, 1]
    ensures Classify(hand, sc, cr) == Ok(([2, 2, 1], [cr[0], cr[1], MaxInt(cr[2], cr[3])]))
    ensures Finish(Upgrade([2, 2, 1], sc), [cr[0], cr[1], MaxInt(cr[2], cr[3])])
         == Ok(Scored([2, 2, 1], [cr[0], cr[1], MaxInt(cr[2], cr[3])], TwoPair))
  {
    assert Take(sc, 4)[0] == sc[0] && Take(sc, 4)[1] == sc[1];
    assert Take(sc, 2) != [3, 2] && Take(sc, 2) != [3, 3];
    assert Upgrade([2, 2, 1], sc) == [2, 2, 1];
    assert Take([2, 2, 1], 2) == [2, 2] && Take([2, 2, 1], 3) == [2, 2, 1];
    assert Take([2, 2, 1], 3) != [3, 1, 3] && Take([2, 2, 1], 3) != [3, 1, 2] && Take([2, 2, 1], 2) != [3, 1];
    var t := [cr[0], cr[1], MaxInt(cr[2], cr[3])];
    assert Take(t, 3) == t;
  }

  lemma ClassifyQuads(hand: seq<string>, sc: seq<int>, cr: seq<int>)
    requires AllCards(hand) && |sc| == |cr| >= 2 && sc[0] == 4
    ensures var sorted := SortIntsDesc(cr);
      && Classify(hand, sc, cr) == Ok(([4], [sorted[0], sorted[1]]))
  {
    var sorted := SortIntsDesc(cr);
    assert |multiset(sorted)| == |multiset(cr)|;
    assert !(Take(sc, 2) == [3, 2] || Take(sc, 2) == [3, 3]) by { assert Take(sc, 2)[0] == 4; }
    assert Take(sc, 4) != [2, 2, 2, 1] by { assert Take(sc, 4)[0] == 4; }
    assert |sorted| >= 2;
  }

  lemma FinishQuads(sc: seq<int>, tie: seq<int>)
    requires |sc| > 0 && sc[0] == 4
    ensures Finish(Upgrade([4], sc), tie) == Ok(Scored([4], tie, FourOfAKind))
  {
  }

  lemma ClassifyLoneQuads(hand: seq<string>, sc: seq<int>, cr: seq<int>)
    requires AllCards(hand) && |sc| == |cr| == 1 && sc[0] == 4
    ensures Classify(hand, sc, cr) == Err(IndexError)
  {
    var sorted := SortIntsDesc(cr);
    assert |multiset(sorted)| == |multiset(cr)|;
    assert Take(sc, 2) == sc && Take(sc, 4) == sc;
  }

  /** Trips with a second rank of two or three cards score (3, 2), ranked by the higher trips
      rank and then the other rank. */
  lemma FullHouseScore(hand: seq<string>)
    requires AllCards(hand)
    requires |Counted(hand)| >= 2 && Counted(hand)[0].0 == 3 && Counted(hand)[1].0 >= 2
    ensures var ps := Counted(hand);
      CalcScore(hand) == Ok(Scored([3, 2], [ps[0].1, ps[1].1], FullHouse))
    ensures var ps := Counted(hand);
      && RankCount(hand, ps[0].1) == 3 && RankCount(hand, ps[1].1) >= 2 && ps[0].1 != ps[1].1
      && forall r :: 0 <= r < 13 && RankCount(hand, r) == 3 ==> r <= ps[0].1
  {
    var ps := Counted(hand);
    CountedTally(hand);
    FullHouseRanks(hand, ps);
    ClassifyFullHouse(hand, Firsts(ps), Seconds(ps));
    CalcScoreStages(hand, ([3, 2], [ps[0].1, ps[1].1]));
  }

  lemma FullHouseRanks(hand: seq<string>, ps: seq<(int, int)>)
    requires AllCards(hand) && PairsDesc(ps) && RankTally(hand, ps)
    requires |ps| >= 2 && ps[0].0 == 3 && ps[1].0 >= 2
    ensures Firsts(ps)[1] <= 3
    ensures RankCount(hand, ps[0].1) == 3 && RankCount(hand, ps[1].1) >= 2 && ps[0].1 != ps[1].1
    ensures forall r :: 0 <= r < 13 && RankCount(hand, r) == 3 ==> r <= ps[0].1
  {
    assert PairGe(ps[0], ps[1]);
    assert Seconds(ps)[0] != Seconds(ps)[1];
    forall r | 0 <= r < 13 && RankCount(hand, r) == 3
      ensures r <= ps[0].1
    {
      var i :| 0 <= i < |ps| && Seconds(ps)[i] == r;
      if i > 0 {
        assert PairGe(ps[0], ps[i]);
      }
    }
  }

  /** Three pairs and a single card score as two pair (2, 2, 1): the two higher pair ranks,
      then the better of the third pair's rank and the single card's rank. */
  lemma ThreePairsScore(hand: seq<string>)
    requires AllCards(hand)
    requires |Counted(hand)| >= 4 && Take(Firsts(Counted(hand)), 4) == [2, 2, 2, 1]
    ensures var ps := Counted(hand);
      CalcScore(hand) == Ok(Scored([2, 2, 1], [ps[0].1, ps[1].1, MaxInt(ps[2].1, ps[3].1)], TwoPair))
    ensures var ps := Counted(hand);
      && RankCount(hand, ps[0].1) == 2 && RankCount(hand, ps[1].1) == 2 && RankCount(hand, ps[2].1) == 2
      && RankCount(hand, ps[3].1) == 1
      && ps[0].1 > ps[1].1 > ps[2].1
  {
    var ps := Counted(hand);
    CountedTally(hand);
    ThreePairsRanks(hand, ps);
    ClassifyThreePairs(hand, Firsts(ps), Seconds(ps));
    CalcScoreStages(hand, ([2, 2, 1], [ps[0].1, ps[1].1, MaxInt(ps[2].1, ps[3].1)]));
  }

  lemma ThreePairsRanks(hand: seq<string>, ps: seq<(int, int)>)
    requires AllCards(hand) && PairsDesc(ps) && RankTally(hand, ps)
    requires |ps| >= 4 && Take(Firsts(ps), 4) == [2, 2, 2, 1]
    ensures RankCount(hand, ps[0].1) == 2 && RankCount(hand, ps[1].1) == 2 && RankCount(hand, ps[2].1) == 2
    ensures RankCount(hand, ps[3].1) == 1
    ensures ps[0].1 > ps[1].1 > ps[2].1
  {
    var t := Take(Firsts(ps), 4);
    assert t[0] == ps[0].0 && t[1] == ps[1].0 && t[2] == ps[2].0 && t[3] == ps[3].0;
    assert PairGe(ps[0], ps[1]) && PairGe(ps[1], ps[2]);
    assert Seconds(ps)[0] != Seconds(ps)[1] && Seconds(ps)[1] != Seconds(ps)[2];
  }

  /** A leading count of four scores (4,), ranked by the two highest ranks present, whichever
      of them is the quads rank; a hand of one rank only has no second rank (IndexError). */
  lemma FourOfAKindScore(hand: seq<string>)
    requires AllCards(hand)
    requires |Counted(hand)| > 0 && Counted(hand)[0].0 == 4
    ensures |Counted(hand)| == 1 ==> CalcScore(hand) == Err(IndexError)
    ensures |Counted(hand)| >= 2 ==> exists hi, lo ::
      && CalcScore(hand) == Ok(Scored([4], [hi, lo], FourOfAKind))
      && RankCount(hand, hi) > 0 && RankCount(hand, lo) > 0 && lo < hi
      && forall r :: 0 <= r < 13 && RankCount(hand, r) > 0 && r != hi ==> r <= lo
  {
    var ps := Counted(hand);
    CountedTally(hand);
    if |ps| >= 2 {
      var sorted := SortIntsDesc(Seconds(ps));
      QuadsRanks(hand, ps, sorted);
      ClassifyQuads(hand, Firsts(ps), Seconds(ps));
      FinishQuads(Firsts(ps), [sorted[0], sorted[1]]);
      CalcScoreStages(hand, ([4], [sorted[0], sorted[1]]));
      assert CalcScore(hand) == Ok(Scored([4], [sorted[0], sorted[1]], FourOfAKind));
    } else {
      ClassifyLoneQuads(hand, Firsts(ps), Seconds(ps));
    }
  }

  lemma QuadsRanks(hand: seq<string>, ps: seq<(int, int)>, sorted: seq<int>)
    requires AllCards(hand) && RankTally(hand, ps) && |ps| >= 2
    requires sorted == SortIntsDesc(Seconds(ps))
    ensures |sorted| >= 2
    ensures RankCount(hand, sorted[0]) > 0 && RankCount(hand, sorted[1]) > 0 && sorted[1] < sorted[0]
    ensures forall r :: 0 <= r < 13 && RankCount(hand, r) > 0 && r != sorted[0] ==> r <= sorted[1]
  {
    var cr := Seconds(ps);
    TopTwoSorted(cr, sorted);
    var i :| 0 <= i < |cr| && cr[i] == sorted[0];
    var j :| 0 <= j < |cr| && cr[j] == sorted[1];
    assert ps[i].1 == sorted[0] && ps[j].1 == sorted[1];
  }

  /** Sorting distinct values puts the largest first and the second largest next. */
  lemma TopTwoSorted(cr: seq<int>, sorted: seq<int>)
    requires Distinct(cr) && |cr| >= 2 && sorted == SortIntsDesc(cr)
    ensures |sorted| == |cr| && sorted[0] in cr && sorted[1] in cr && sorted[1] < sorted[0]
    ensures forall x :: x in cr && x != sorted[0] ==> x <= sorted[1]
  {
    assert |multiset(sorted)| == |multiset(cr)|;
    DistinctSameElements(cr, sorted);
    assert sorted[0] in multiset(sorted) && sorted[1] in multiset(sorted);
    assert sorted[0] != sorted[1];
    forall x | x in cr && x != sorted[0]
      ensures x <= sorted[1]
    {
      assert x in multiset(cr);
      BelowHead(sorted, x);
    }
  }

  /** In a descending sequence, a value other than the head is at most the second one. */
  lemma BelowHead(s: seq<int>, x: int)
    requires IntsDesc(s) && x in multiset(s) && x != s[0]
    ensures |s| >= 2 && x <= s[1]
  {
    var k :| 0 <= k < |s| && s[k] == x;
  }

  // ---------------------------------------------------------------------------
  // Straights, flushes and the six-card pair.

  /** The flush labels come from the flush branch alone: the five-or-more-ranks branch reports
      (3, 1, 3) or (5,) exactly when some suit holds five cards, and a plain straight is five
      consecutive ranks, the low ace counting as -1. */
  lemma StraightOrFlushMeaning(hand: seq<string>, cardRanks: seq<int>)
    requires AllCards(hand) && Distinct(cardRanks) && -1 !in cardRanks
    ensures var r := StraightOrFlush(hand, cardRanks);
      (r.0 == [3, 1, 3] || r.0 == [5]) <==> HasFlush(hand)
    ensures var r := StraightOrFlush(hand, cardRanks);
      r.0 == [3, 1, 2] ==> |r.1| == 5 && r.1 == [r.1[0], r.1[0] - 1, r.1[0] - 2, r.1[0] - 3, r.1[0] - 4]
  {
    StraightOrFlushLabels(hand, cardRanks);
    StraightWindow(hand, cardRanks);
  }

  /** The flush branch reports (3, 1, 3) or (5,), the other branch (3, 1, 2) or (1,). */
  lemma StraightOrFlushLabels(hand: seq<string>, cardRanks: seq<int>)
    requires AllCards(hand)
    ensures var r := StraightOrFlush(hand, cardRanks);
      (r.0 == [3, 1, 3] || r.0 == [5]) <==> HasFlush(hand)
  {
    var cr1 := AceLow(cardRanks);
    var sorted := SortIntsDesc(cr1);
    var scan := ScanStraight(sorted, 0, false);
    if HasFlush(hand) {
      var fh := FlushHand(hand, FlushSuit(hand, 0));
      FlushHandCards(hand, FlushSuit(hand, 0));
      var fr := SortIntsDesc(Seconds(Counted(fh)));
      var fr2 := if 12 in fr && -1 !in fr then fr + [-1] else fr;
      var scan2 := ScanStraight(fr2, 0, scan.0);
      assert StraightOrFlush(hand, cardRanks) == (if scan2.0 then [5] else [3, 1, 3], fr2);
    } else {
      var cr2 := if scan.1 >= 0 then sorted[scan.1..scan.1 + 5] else cr1;
      assert StraightOrFlush(hand, cardRanks) == (if scan.0 then [3, 1, 2] else [1], cr2);
    }
  }

  /** A plain straight is reported with five consecutive ranks. */
  lemma StraightWindow(hand: seq<string>, cardRanks: seq<int>)
    requires AllCards(hand) && Distinct(cardRanks) && -1 !in cardRanks
    ensures var r := StraightOrFlush(hand, cardRanks);
      r.0 == [3, 1, 2] ==> |r.1| == 5 && r.1 == [r.1[0], r.1[0] - 1, r.1[0] - 2, r.1[0] - 3, r.1[0] - 4]
  {
    StraightOrFlushLabels(hand, cardRanks);
    if !HasFlush(hand) {
      var cr1 := AceLow(cardRanks);
      var sorted := SortIntsDesc(cr1);
      var scan := ScanStraight(sorted, 0, false);
      assert scan.0 <==> scan.1 >= 0;
      var cr2 := if scan.1 >= 0 then sorted[scan.1..scan.1 + 5] else cr1;
      assert StraightOrFlush(hand, cardRanks) == (if scan.0 then [3, 1, 2] else [1], cr2);
      if scan.0 {
        AceLowDistinct(cardRanks);
        DistinctSameElements(cr1, sorted);
        ConsecutiveWindow(sorted, scan.1);
      }
    }
  }

  lemma FlushHandCards(hand: seq<string>, suit: char)
    requires AllCards(hand)
    ensures AllCards(FlushHand(hand, suit))
  {
    var fh := FlushHand(hand, suit);
    forall i | 0 <= i < |fh| ensures IsCard(fh[i]) {
      assert fh[i] in fh;
      var j :| 0 <= j < |hand| && hand[j] == fh[i];
    }
  }

  lemma AceLowDistinct(cr: seq<int>)
    requires Distinct(cr) && -1 !in cr
    ensures Distinct(AceLow(cr))
  {
  }

  /** Five strictly falling integers spanning four are consecutive. */
  lemma ConsecutiveWindow(s: seq<int>, i: nat)
    requires IntsDesc(s) && Distinct(s) && i + 4 < |s| && s[i] - s[i + 4] == 4
    ensures s[i..i + 5] == [s[i], s[i] - 1, s[i] - 2, s[i] - 3, s[i] - 4]
  {
    assert s[i] > s[i + 1] > s[i + 2] > s[i + 3] > s[i + 4];
  }

  /** The residual upgrades look at seven-card shapes only: six cards with one pair, counts
      (2, 1, 1, 1, 1), never come out as a pair; without a straight or flush they are a high
      card. */
  lemma SixCardPair(hand: seq<string>)
    requires AllCards(hand) && Distinct(hand) && Firsts(Counted(hand)) == [2, 1, 1, 1, 1]
    ensures CalcScore(hand).Ok?
    ensures CalcScore(hand).value.handType in {HighCard, Straight, Flush, StraightFlush}
    ensures CalcScore(hand).value.score == StraightOrFlush(hand, Seconds(Counted(hand))).0
  {
    var ps := Counted(hand);
    var sc := Firsts(ps);
    var cr := Seconds(ps);
    ClassifySixPair(hand, sc, cr);
    var mid := StraightOrFlush(hand, cr);
    CalcScoreStages(hand, mid);
    SixFinish(mid);
  }

  lemma ClassifySixPair(hand: seq<string>, sc: seq<int>, cr: seq<int>)
    requires AllCards(hand) && Distinct(hand) && sc == [2, 1, 1, 1, 1] && |cr| == 5
    ensures Classify(hand, sc, cr) == Ok(StraightOrFlush(hand, cr))
    ensures StraightOrFlush(hand, cr).0 in {[1], [3, 1, 2], [3, 1, 3], [5]}
    ensures Upgrade(StraightOrFlush(hand, cr).0, sc) == StraightOrFlush(hand, cr).0
  {
    assert Take(sc, 2) == [2, 1] && Take(sc, 4) == [2, 1, 1, 1];
    ClassifyFallsThrough(hand, sc, cr);
    StraightOrFlushShape(hand, cr);
    UpgradeKeepsSixPair(StraightOrFlush(hand, cr).0, sc);
  }

  /** Five or more counts with no full house, three pairs or quads go to the straight and
      flush search. */
  lemma ClassifyFallsThrough(hand: seq<string>, score: seq<int>, cr: seq<int>)
    requires AllCards(hand) && |score| >= 5 && |score| == |cr| && score[0] != 4
    requires Take(score, 2) != [3, 2] && Take(score, 2) != [3, 3] && Take(score, 4) != [2, 2, 2, 1]
    ensures Classify(hand, score, cr) == Ok(StraightOrFlush(hand, cr))
  {
  }

  /** The six-card pair shape never upgrades a score. */
  lemma UpgradeKeepsSixPair(score: seq<int>, sc: seq<int>)
    requires sc == [2, 1, 1, 1, 1]
    ensures Upgrade(score, sc) == score
  {
  }

  lemma SixFinish(mid: (seq<int>, seq<int>))
    requires mid.0 in {[1], [3, 1, 2], [3, 1, 3], [5]}
    ensures Finish(mid.0, mid.1).Ok?
    ensures Finish(mid.0, mid.1).value.score == mid.0
    ensures Finish(mid.0, mid.1).value.handType in {HighCard, Straight, Flush, StraightFlush}
  {
    assert Take([1], 2) == [1] && Take([1], 3) == [1];
    assert Take([3, 1, 2], 2) == [3, 1] && Take([3, 1, 2], 3) == [3, 1, 2];
    assert Take([3, 1, 3], 2) == [3, 1] && Take([3, 1, 3], 3) == [3, 1, 3];
  }

  // ---------------------------------------------------------------------------
  // Comparing scores, eval_best_hand and get_winner.

  /** A label as the sequence of its character codes, for Python's string comparison. */
  function Codes(s: string): (r: seq<int>)
    ensures |r| == |s| && forall i :: 0 <= i < |s| ==> r[i] == s[i] as int
  {
    seq(|s|, i requires 0 <= i < |s| => s[i] as int)
  }

  /** Python's `<` on two `_calc_score` triples: the score tuple, then the tie-break tuple,
      then the label string. */
  predicate Below(a: Scored, b: Scored) {
    || Lt(a.score, b.score)
    || (a.score == b.score && Lt(a.cardRanks, b.cardRanks))
    || (a.score == b.score && a.cardRanks == b.cardRanks && Lt(Codes(Label(a.handType)), Codes(Label(b.handType))))
  }

  lemma LabelsDiffer(a: HandType, b: HandType)
    requires Codes(Label(a)) == Codes(Label(b))
    ensures a == b
  {
    assert Label(a) == Label(b) by {
      var x, y := Label(a), Label(b);
      assert |x| == |y|;
      forall i | 0 <= i < |x| ensures x[i] == y[i] {
        assert Codes(x)[i] == Codes(y)[i];
      }
    }
  }

  /** Below is a strict total order on triples. */
  lemma BelowTotal(a: Scored, b: Scored)
    ensures Below(a, b) || a == b || Below(b, a)
    ensures !(Below(a, b) && Below(b, a))
    ensures !Below(a, a)
  {
    Trichotomy(a.score, b.score);
    Trichotomy(a.cardRanks, b.cardRanks);
    Trichotomy(Codes(Label(a.handType)), Codes(Label(b.handType)));
    Trichotomy(a.score, a.score);
    Trichotomy(a.cardRanks, a.cardRanks);
    Trichotomy(Codes(Label(a.handType)), Codes(Label(a.handType)));
    if Codes(Label(a.handType)) == Codes(Label(b.handType)) {
      LabelsDiffer(a.handType, b.handType);
    }
  }

  lemma BelowTransitive(a: Scored, b: Scored, c: Scored)
    requires Below(a, b) && Below(b, c)
    ensures Below(a, c)
  {
    if Lt(a.score, b.score) && Lt(b.score, c.score) {
      Transitive(a.score, b.score, c.score);
    } else if a.score == b.score && b.score == c.score {
      if Lt(a.cardRanks, b.cardRanks) && Lt(b.cardRanks, c.cardRanks) {
        Transitive(a.cardRanks, b.cardRanks, c.cardRanks);
      } else if a.cardRanks == b.cardRanks && b.cardRanks == c.cardRanks {
        Transitive(Codes(Label(a.handType)), Codes(Label(b.handType)), Codes(Label(c.handType)));
      }
    }
  }

  /** The position `sorted(..., reverse=True)[0]` takes: Python's sort is stable under
      `reverse=True`, so among equal best triples the earliest wins. */
  function FirstBest(s: seq<Scored>): (w: nat)
    requires |s| > 0
    ensures w < |s|
    ensures forall j :: 0 <= j < |s| ==> !Below(s[w], s[j])
    ensures forall j :: 0 <= j < w ==> Below(s[j], s[w])
  {
    if |s| == 1 then
      BelowTotal(s[0], s[0]);
      0
    else
      var k := FirstBest(s[1..]);
      BestStep(s, k);
      if Below(s[0], s[k + 1]) then k + 1 else 0
  }

  lemma BestStep(s: seq<Scored>, k: nat)
    requires |s| > 1 && k < |s| - 1
    requires forall j :: 0 <= j < |s| - 1 ==> !Below(s[1..][k], s[1..][j])
    requires forall j :: 0 <= j < k ==> Below(s[1..][j], s[1..][k])
    ensures Below(s[0], s[k + 1]) ==>
      && (forall j :: 0 <= j < |s| ==> !Below(s[k + 1], s[j]))
      && (forall j :: 0 <= j < k + 1 ==> Below(s[j], s[k + 1]))
    ensures !Below(s[0], s[k + 1]) ==> forall j :: 0 <= j < |s| ==> !Below(s[0], s[j])
  {
    if Below(s[0], s[k + 1]) {
      BelowTotal(s[0], s[k + 1]);
      forall j | 1 <= j < |s| ensures !Below(s[k + 1], s[j]) {
        assert s[1..][j - 1] == s[j];
      }
      forall j | 1 <= j < k + 1 ensures Below(s[j], s[k + 1]) {
        assert s[1..][j - 1] == s[j];
      }
    } else {
      BelowTotal(s[0], s[0]);
      forall j | 1 <= j < |s| ensures !Below(s[0], s[j]) {
        assert s[1..][j - 1] == s[j];
        if Below(s[0], s[j]) {
          BelowTotal(s[j], s[k + 1]);
          if Below(s[j], s[k + 1]) {
            BelowTransitive(s[0], s[j], s[k + 1]);
          }
        }
      }
    }
  }

  predicate AllHands(hands: seq<seq<string>>) {
    forall i :: 0 <= i < |hands| ==> AllCards(hands[i])
  }

  /** `[_calc_score(hand) for hand in hands]`. */
  function ScoreAll(hands: seq<seq<string>>): (r: Result<seq<Scored>>)
    requires AllHands(hands)
    ensures r.Ok? <==> forall i :: 0 <= i < |hands| ==> CalcScore(hands[i]).Ok?
    ensures r.Ok? ==> |r.value| == |hands| && forall i :: 0 <= i < |hands| ==> CalcScore(hands[i]) == Ok(r.value[i])
  {
    Collect(Scores(hands))
  }

  function Scores(hands: seq<seq<string>>): (rs: seq<Result<Scored>>)
    requires AllHands(hands)
    ensures |rs| == |hands| && forall i :: 0 <= i < |hands| ==> rs[i] == CalcScore(hands[i])
  {
    seq(|hands|, i requires 0 <= i < |hands| => CalcScore(hands[i]))
  }

  /** The comprehension stops at the first hand that raises, with that hand's error. */
  lemma ScoreAllFirstError(hands: seq<seq<string>>, i: nat)
    requires AllHands(hands) && i < |hands| && CalcScore(hands[i]).Err?
    requires forall j :: 0 <= j < i ==> CalcScore(hands[j]).Ok?
    ensures ScoreAll(hands) == Err(CalcScore(hands[i]).error)
  {
    CollectFirstError(Scores(hands), i);
  }

  /** `eval_best_hand`: the best hand and its label; no hands leaves nothing to pick
      (IndexError). */
  function EvalBestHand(hands: seq<seq<string>>): (r: Result<(seq<string>, HandType)>)
    requires AllHands(hands)
  {
    var scores :- ScoreAll(hands);
    if scores == [] then Err(IndexError)
    else
      var w := FirstBest(scores);
      Ok((hands[w], scores[w].handType))
  }

  /** Hand w scores: every hand scores, none above w, and every earlier hand strictly below. */
  predicate BestAt(hands: seq<seq<string>>, w: int)
    requires AllHands(hands)
  {
    && 0 <= w < |hands|
    && (forall j :: 0 <= j < |hands| ==> CalcScore(hands[j]).Ok?)
    && (forall j :: 0 <= j < |hands| ==> !Below(CalcScore(hands[w]).value, CalcScore(hands[j]).value))
    && (forall j :: 0 <= j < w ==> Below(CalcScore(hands[j]).value, CalcScore(hands[w]).value))
  }

  /** At most one position is the first best. */
  lemma BestAtUnique(hands: seq<seq<string>>, v: int, w: int)
    requires AllHands(hands) && BestAt(hands, v) && BestAt(hands, w)
    ensures v == w
  {
    var sv, sw := CalcScore(hands[v]).value, CalcScore(hands[w]).value;
    assert v < w ==> Below(sv, sw);
    assert w < v ==> Below(sw, sv);
    assert !Below(sv, sw) && !Below(sw, sv);
  }

  /** The returned hand is the first best one, and the label is its own. */
  lemma EvalBestHandBest(hands: seq<seq<string>>)
    requires AllHands(hands) && EvalBestHand(hands).Ok?
    ensures exists w :: (BestAt(hands, w)
      && EvalBestHand(hands).value == (hands[w], CalcScore(hands[w]).value.handType))
  {
    var scores := ScoreAll(hands).value;
    var w := FirstBest(scores);
    assert BestAt(hands, w);
  }

  /** No hands to compare raises IndexError, a hand that cannot be scored raises the first
      such error, and otherwise there is a best hand. */
  lemma EvalBestHandErrors(hands: seq<seq<string>>)
    requires AllHands(hands)
    ensures hands == [] ==> EvalBestHand(hands) == Err(IndexError)
    ensures EvalBestHand(hands).Ok? <==> hands != [] && forall i :: 0 <= i < |hands| ==> CalcScore(hands[i]).Ok?
  {
  }

  /** `list.index`: the first position holding x. */
  function IndexOf<T(==)>(s: seq<T>, x: T): (i: nat)
    requires x in s
    ensures i < |s| && s[i] == x && forall j :: 0 <= j < i ==> s[j] != x
  {
    if s[0] == x then 0 else 1 + IndexOf(s[1..], x)
  }

  /** Each player's hole cards followed by the table cards. */
  function Combined(playerHands: seq<seq<string>>, tableCards: seq<string>): (r: seq<seq<string>>)
    ensures |r| == |playerHands| && forall i :: 0 <= i < |r| ==> r[i] == playerHands[i] + tableCards
  {
    seq(|playerHands|, i requires 0 <= i < |playerHands| => playerHands[i] + tableCards)
  }

  /** `get_winner`: the first player whose combined cards equal the best hand. */
  function GetWinnerSpec(playerHands: seq<seq<string>>, tableCards: seq<string>): Result<(nat, HandType)>
    requires AllHands(Combined(playerHands, tableCards))
  {
    var combined := Combined(playerHands, tableCards);
    var best :- EvalBestHand(combined);
    EvalBestHandIn(combined);
    Ok((IndexOf(combined, best.0), best.1))
  }

  lemma EvalBestHandIn(hands: seq<seq<string>>)
    requires AllHands(hands) && EvalBestHand(hands).Ok?
    ensures EvalBestHand(hands).value.0 in hands
  {
  }

  /** The `index` lookup lands on the player eval_best_hand chose: an earlier player with the
      same cards would have the same score and would have been chosen first. */
  lemma GetWinnerIsBest(playerHands: seq<seq<string>>, tableCards: seq<string>)
    requires AllHands(Combined(playerHands, tableCards))
    requires GetWinnerSpec(playerHands, tableCards).Ok?
    ensures var combined := Combined(playerHands, tableCards);
      var w := GetWinnerSpec(playerHands, tableCards).value.0;
      && BestAt(combined, w)
      && GetWinnerSpec(playerHands, tableCards).value.1 == CalcScore(combined[w]).value.handType
  {
    var combined := Combined(playerHands, tableCards);
    var scores := ScoreAll(combined).value;
    var b := FirstBest(scores);
    FirstBestIsBestAt(combined);
    IndexOfFirstBest(combined);
    assert GetWinnerSpec(playerHands, tableCards) == Ok((b, scores[b].handType));
  }

  /** The first best score marks the first best hand. */
  lemma FirstBestIsBestAt(hands: seq<seq<string>>)
    requires AllHands(hands) && ScoreAll(hands).Ok? && hands != []
    ensures BestAt(hands, FirstBest(ScoreAll(hands).value))
  {
  }

  /** Looking the first best hand up by its cards finds that hand: an earlier copy of the
      same cards would score the same, so it would not be strictly below. */
  lemma IndexOfFirstBest(hands: seq<seq<string>>)
    requires AllHands(hands) && ScoreAll(hands).Ok? && hands != []
    ensures IndexOf(hands, hands[FirstBest(ScoreAll(hands).value)]) == FirstBest(ScoreAll(hands).value)
  {
    var scores := ScoreAll(hands).value;
    var b := FirstBest(scores);
    BelowTotal(scores[b], scores[b]);
  }

  /** `get_winner` as the source writes it: the combined hands are built by an append loop. */
  method GetWinner(playerHands: seq<seq<string>>, tableCards: seq<string>) returns (r: Result<(nat, HandType)>)
    requires AllHands(Combined(playerHands, tableCards))
    ensures r == GetWinnerSpec(playerHands, tableCards)
  {
    var combined: seq<seq<string>> := [];
    for i := 0 to |playerHands|
      invariant combined == Combined(playerHands[..i], tableCards)
    {
      combined := combined + [playerHands[i] + tableCards];
    }
    assert playerHands[..|playerHands|] == playerHands;
    var best :- EvalBestHand(combined);
    EvalBestHandIn(combined);
    r := Ok((IndexOf(combined, best.0), best.1));
  }
}
