# neuron_poker in Dafny: the hold'em table, its seat cycles and the hand rankers

This project models the three deterministic parts of neuron_poker, a Texas hold'em
environment for reinforcement learning, and proves properties of them:

- **The betting engine.** This is the `HoldemTable` of gym_env/env.py: decisions, legal
  moves, streets, pots, side pots, the winner, the deal and the game-over check, together
  with the `PlayerCycle` seat rotation of the same file.
- **The newer `PlayerCycle` of gym_env/cycle.py.** It has a strict step limit, a no-raise
  window, a big-blind grace period and a raise budget.
- **The poker hand ranker.** This is tools/hand_evaluator.py, and its C++ port in
  tools/montecarlo_cpp/Montecarlo.cpp and Montecarlo.h.

## Layout

| module | file | models |
|---|---|---|
| `Common` | common.dfy | the exceptions the code raises, a `Result` type, and numpy-style helpers on the per-seat lists (boolean sums, element-wise or, sums of reals) |
| `Cards` | cards.dfy | two-character card strings, a rank from "23456789TJQKA" and a suit from "CDHS" |
| `Tuples` | tuples.dfy | lexicographic order of score tuples (Python tuples and `std::vector<int>`), and the descending sorts both rankers use |
| `Seats` | seats.dfy | seat arithmetic modulo the table size, and the skip loops both cycles share |
| `HandEvaluator` | hand_evaluator.dfy | `_calc_score`, `eval_best_hand` and `get_winner` of the Python ranker |
| `MontecarloH` | montecarlo_h.dfy | the `slice` template and the `Hand` card set (a class) |
| `Montecarlo` | montecarlo.dfy | `get_rcounts`, `calc_score`, `eval_best_hand` and the `Deck` set operations of the C++ ranker |
| `RankerAgreement` | agreement.dfy | the two rankers agree on every hand of at most seven distinct cards |
| `EnvCycle` | env_cycle.dfy | `PlayerCycle` of gym_env/env.py: a state datatype, a function per method, and a class whose methods are proved against them |
| `Cycle` | cycle.dfy | `PlayerCycle` of gym_env/cycle.py, in the same form |
| `Env` | env.dfy | the table's state as a datatype, and one function per `HoldemTable` method from the state before the call to the state after it, with the lemmas about them |
| `EnvTable` | env_table.dfy | `HoldemTable` as a class that updates its attributes in place, each method proved against its `Env` function |
| `InitEnv` | init_env.dfy | the six-seat game of `test_init_env`, from `reset()` through six steps to the flop |

## How the model represents the source

- **Exceptions.** An exception of the source (AssertionError, IndexError, TypeError,
  AttributeError, RuntimeError, ValueError, ZeroDivisionError, the ranker's
  "Card Type error!") is an `Err` of the `Result` type. The callers' requirements stay
  those of the source: an operation that raises on some input is modelled on that input
  and returns the error.
- **Endless loops.** A `while True` skip loop that would never end (no seat can move and
  no step limit is set) returns `Err(NeverReturns)`. The lemmas `NextPlayerNeverReturns`
  and `Seats.SkipMeaning` say exactly when that happens.
- **Chips** are exact `real`s, because the half-pot raise divides by two.
- **Random draws.** `np.random.randint` in the deal loops is replaced by a sequence of
  indices carried in the table (`draws`). A draw with no index left, or with an index
  outside the deck, is `Err(BadDraw)`. Every draw the source can make is some index in
  range, so every real deal is an `Ok` path of the model.
- **Players.** The list of players is the list of seats: seat i is `players[i]`, and a
  cycle returns seat numbers where the source returns list items.

## What is proved, in brief

- **Chips.** Within a hand, the stacks plus the side-pot stakes (`player_max_win`) stay
  constant through every decision, blind and street (`Env.ProcessDecisionConserves`,
  `Env.NextPlayerConserves`, `Env.InitiateRoundConserves`). The award hands out exactly
  those chips (`Env.AwardMeaning`, `Env.CappedPlusExcess`).
- **The community pot is not a ledger.** `Env.EndRoundCountsStreetTwice` shows that
  `_end_round` adds each street to it twice.
- **Stacks can go negative.** `RAISE_3BB` is offered after a check of `3 * big_blind`,
  but it pays `(community_pot + big_blind) * 3`. `Env.Raise3BBOverdraws` exhibits a stack
  of 6 left at -30. Every other legal move keeps a stack non-negative
  (`Env.LegalMovesAffordable`). The model keeps the source's behaviour here.
- **Legal moves and seat rotation.** The legal moves are characterised exactly, in both
  directions (`Env.LegalMovesMeaning`). `next_player` of both cycles is characterised:
  when it returns False, which seat it returns, and when it spins forever.
- **The winner.** At showdown the winner is a seat whose combined hand ranks best; a sole
  remaining seat wins without ranking; a folded seat never wins (`Env.WinnerMeaning`).
- **The Python ranker.** Counts sum to the hand size and the (count, rank) pairs are
  descending. Every seven-card hand gets one of the nine categories, with its tie-break
  length, and `eval_best_hand` returns the first best hand.
- **The C++ port agrees.** On every hand of at most seven distinct cards it computes the
  same score and names the same first player (`RankerAgreement`).
- **The tests.** The scenarios of tests/test_gym_env.py `test_cycle_forever` and
  `test_cycle_max_rounds` are replayed as lemmas. So is `test_init_env` up to its
  assertions: for every deal, `reset()` and the six steps CALL, FOLD, FOLD, FOLD, CALL,
  CALL reach the flop with the stacks the test asserts (`InitEnv.TestInitEnv`).

## The no-raise window of gym_env/cycle.py

`new_street_reset` sets `max_remaining_steps_without_raising` to `len(self.alive) - 1`
(gym_env/cycle.py:54). `alive` holds one flag per seat, whatever the seats' state, so on
every street after the first the window is n - 1 steps for n seats; the constructor sets
it to n (gym_env/cycle.py:37). The model keeps both values (`Cycle.NewStreetResetMeaning`,
`Cycle.Initial`).

## Model

| member | source | states |
|---|---|---|
| Common.CountTrue | gym_env/cycle.py:85 | `sum(flags)` over booleans is at most the number of seats, and is 0 exactly when no flag is set |
| Common.CountTrueClear | gym_env/cycle.py:121-124 | clearing one flag lowers the sum by one if it was set and leaves it unchanged otherwise |
| Common.OrSeq | gym_env/env.py:767-770 | numpy `+` on two boolean arrays keeps the length, and each position is the logical or of the two flags |
| Common.Repeat | gym_env/env.py:662-664 | `[value] * n` has length n, and every element is the value |
| Common.Collect | tools/hand_evaluator.py:22 | a comprehension whose items may raise succeeds exactly when every item does; it then holds every item's value in order |
| Common.CollectFirstError | tools/hand_evaluator.py:22 | the comprehension raises the exception of its first failing item |
| Common.OrNothing | gym_env/env.py:767-770 | with no seat all in, `update_alive` leaves the alive flags equal to the move flags |
| Common.AllSet | gym_env/env.py:653-654 | on a fresh cycle every seat is alive, and the flags sum to the number of seats |
| Common.Truthy | gym_env/env.py:686 | Python truthiness of an optional integer setting: None and 0 are both false. `Seats.SkipMeaning` and `EnvCycle.NextPlayerSkips` state which limits it switches off |
| Common.SumReal | gym_env/env.py:543 | `sum` of a list of chip amounts. `Common.SumRealUpdate` and `Common.SumRealRepeat` give its value after one entry changes and on a repeated list |
| Common.SumRealUpdate | gym_env/env.py:288-289 | changing one entry of a list changes its sum by the difference, as when a contribution leaves a stack |
| Common.SumRealRepeat | gym_env/env.py:136-137 | n stacks of the same size x sum to n times x |
| Common.SumRealRepeatZero | gym_env/env.py:453 | the emptied seats' pots `[0] * n` sum to 0 |
| Cards.Find | tools/hand_evaluator.py:29 | `str.find` of one character gives the first index holding it, and gives -1 exactly when the character is absent |
| Cards.Rank | tools/hand_evaluator.py:29 | a card's rank index lies in 0..12 and names the card's rank character |
| Cards.Suit | tools/montecarlo_cpp/Montecarlo.cpp:131-135 | a card's suit index lies in 0..3 and names the card's suit character |
| Cards.RanksAndSuitsDisjoint | tools/hand_evaluator.py:5-6 | no suit letter is a rank letter, so counting a rank letter in the joined hand counts cards |
| Cards.CardOf | tools/montecarlo_cpp/Montecarlo.cpp:263-270 | rank character followed by suit character is a card |
| Cards.CardOfParts | tools/montecarlo_cpp/Montecarlo.cpp:263-270 | the rank and suit of the built card are the indices it was built from |
| Cards.CardOfRankSuit | tools/montecarlo_cpp/Montecarlo.cpp:263-270 | every card is built from its own rank and suit |
| Tuples.Trichotomy | tools/hand_evaluator.py:23 | Python's lexicographic `<` on integer tuples is total and asymmetric |
| Tuples.Transitive | tools/hand_evaluator.py:23 | lexicographic `<` on integer tuples is transitive |
| Tuples.Take | tools/hand_evaluator.py:36-39 | `s[0:k]` is the prefix of length min(k, len(s)) |
| Tuples.Firsts | tools/hand_evaluator.py:30 | `zip(*pairs)[0]` has one entry per pair: its first component |
| Tuples.Seconds | tools/hand_evaluator.py:30 | `zip(*pairs)[1]` has one entry per pair: its second component |
| Tuples.SortPairsDesc | tools/hand_evaluator.py:30 | `sorted(pairs)[::-1]` is descending in tuple order, is a permutation of its input, and keeps the sum of counts |
| Tuples.SortIntsDesc | tools/hand_evaluator.py:45 | `sorted(ranks, reverse=True)` is descending and a permutation of its input |
| Tuples.InsertPair | tools/hand_evaluator.py:30 | inserting a pair into a descending list of pairs keeps it descending, adds exactly that pair to its elements and adds the pair's count to the sum of counts |
| Tuples.InsertInt | tools/hand_evaluator.py:45 | inserting an integer into a descending list keeps it descending and adds exactly that integer to its elements |
| Tuples.PairsDescUnique | tools/hand_evaluator.py:30 | two descending orderings of the same pairs are equal, so every correct sort gives the same result |
| Tuples.IntsDescUnique | tools/hand_evaluator.py:45 | two descending orderings of the same integers are equal |
| Tuples.DistinctSameElements | tools/hand_evaluator.py:30 | rearranging a list without repeats gives a list without repeats |
| Tuples.TallyUnique | tools/montecarlo_cpp/Montecarlo.cpp:37-51 | two tallies of the same rank counts hold the same (count, rank) pairs |
| Tuples.TallyRearranged | tools/montecarlo_cpp/Montecarlo.cpp:37-51 | a rearranged tally is still a tally of the same counts |
| Tuples.TallyFirstIsMax | tools/hand_evaluator.py:32 | the first pair of a descending tally holds the largest count of any rank |
| Seats.PyPos | gym_env/cycle.py:121-124 | Python list indexing: an index is valid exactly when -n <= i < n; a negative one counts from the end |
| Seats.Next | gym_env/env.py:681-683 | `idx += 1; idx %= n` stays a seat |
| Seats.ModNext | gym_env/env.py:703-705 | the step to the following seat is `(i + 1) % n` |
| Seats.Advance | gym_env/env.py:699-705 | walking k seats from a seat stays on a seat |
| Seats.Gap | gym_env/env.py:699-705 | the number of seats walked before the first seat whose flag is set: every seat passed is clear, and the seat reached is set unless the walk went all the way round |
| Seats.GapNone | gym_env/env.py:718-723 | when a walk of a whole circle meets no set flag, no flag is set at all |
| Seats.SkipMeaning | gym_env/env.py:699-708 | the skip loop spins forever exactly when no seat can move and no step limit is set. It otherwise stops at the first seat that can move, or as soon as the counter reaches the limit, and only cleared seats are passed on the way |
| Seats.SkipFound | gym_env/env.py:699-708 | conversely, a walk past cleared seats onto one that can move, not stopped by the limit on the way, is the loop's result |
| Seats.SkipLimit | gym_env/env.py:703-708 | a walk past cleared seats that first brings the counter to the limit on its last step is the loop's result |
| Seats.SkipLoop | gym_env/env.py:699-708 | the `while True` skip loop computes the skip function's walk and stop reason, and ends on the seat reached |
| Seats.Skip | gym_env/env.py:699-708 | the walk of the `while True` skip loop and how it ends. `Seats.SkipMeaning`, `Seats.SkipFound` and `Seats.SkipLimit` characterise it, and `Seats.SkipLoop` shows the loop computes it |
| Seats.NextSeat | gym_env/env.py:713-725 | the dealer search spins forever exactly when no seat can move; otherwise it returns a seat that can move |
| Seats.NextSeatFirst | gym_env/env.py:715-723 | the new dealer is the first seat after the old one that can move: every seat passed cannot |
| HandEvaluator.RankCount | tools/hand_evaluator.py:29 | the number of cards of a rank never exceeds the number of cards |
| HandEvaluator.KeysFrom | tools/hand_evaluator.py:29 | the keys of the rank dictionary built card by card: keys already present stay, every rank present in the rest becomes a key, nothing else is added, and no key repeats |
| HandEvaluator.RankKeys | tools/hand_evaluator.py:29 | the dictionary has exactly the ranks present in the hand as keys, each once |
| HandEvaluator.PairsFor | tools/hand_evaluator.py:29-30 | the (count, rank) pairs carry the dictionary's keys as their ranks, in order |
| HandEvaluator.PairsForCounts | tools/hand_evaluator.py:29-30 | each pair's count is the number of cards of its rank |
| HandEvaluator.ScanStraight | tools/hand_evaluator.py:52-58 | the straight search finds the first five-rank window whose ends differ by 4. When none exists it reports -1 and leaves the previous straight flag only when the loop body never runs |
| HandEvaluator.SuitChars | tools/hand_evaluator.py:61 | the suit letters of a hand, one per card, in order |
| HandEvaluator.FlushHand | tools/hand_evaluator.py:68 | `[k for k in hand if flush_suit in k]` holds exactly the hand's cards that contain the suit letter |
| HandEvaluator.Classify | tools/hand_evaluator.py:36-83 | the shape branches always leave a non-empty score |
| HandEvaluator.CalcScoreStages | tools/hand_evaluator.py:27-119 | `_calc_score` is the shape branch, then the high-card upgrade, then the label choice |
| HandEvaluator.CardCountsRank | tools/hand_evaluator.py:29 | a card contains a rank letter exactly once if it has that rank, and not at all otherwise |
| HandEvaluator.JoinCountsRank | tools/hand_evaluator.py:29 | `''.join(hand).count(r)` counts the cards of rank r |
| HandEvaluator.CountSumAll | tools/hand_evaluator.py:29-30 | over keys covering each rank present once, the counts add up to the number of cards |
| HandEvaluator.RankPairsTally | tools/hand_evaluator.py:29 | the unsorted (count, rank) pairs have one pair per rank present with its true count, and the counts add up to the number of cards |
| HandEvaluator.TallySameElements | tools/hand_evaluator.py:30 | sorting the pairs keeps them a tally of the hand |
| HandEvaluator.TallyPairsKept | tools/hand_evaluator.py:30 | every pair of a rearranged tally carries a rank present in the hand and that rank's count |
| HandEvaluator.TallyRanksKept | tools/hand_evaluator.py:30 | every rank present in the hand is still among the ranks of a rearranged tally |
| HandEvaluator.DistinctPairsSeconds | tools/hand_evaluator.py:29-30 | pairs without repeats, whose count is fixed by their rank, carry distinct ranks |
| HandEvaluator.CountedTally | tools/hand_evaluator.py:29-30 | the sorted (count, rank) pairs are in descending tuple order and have one pair per rank present with its true count. The counts add up to the number of cards |
| HandEvaluator.RankCountIsCards | tools/hand_evaluator.py:29 | among distinct cards, the count of a rank is the number of distinct cards of that rank |
| HandEvaluator.RankCountAtMostFour | tools/hand_evaluator.py:43 | among distinct cards no rank occurs more than four times |
| HandEvaluator.SevenCountPattern | tools/hand_evaluator.py:29-34 | the counts of seven distinct cards do not increase, each lies between 1 and 4, and they add up to 7 |
| HandEvaluator.SevenShapes | tools/hand_evaluator.py:32-47 | the count patterns seven cards can show: trips come with a second pair or with four singles, and a leading pair comes as three pairs, two pairs or one pair. Seven singles are the only high-card shape |
| HandEvaluator.SevenShapesSingles | tools/hand_evaluator.py:32-34 | a top count followed by a single is followed by singles only |
| HandEvaluator.SevenShapesTwoPairs | tools/hand_evaluator.py:33-39 | two leading pairs among seven cards have either a third pair and a single, or three singles |
| HandEvaluator.FlushSuitHasFive | tools/hand_evaluator.py:64-66 | the suit loop stops on a suit with five cards when a later suit has five |
| HandEvaluator.FlushSuitFound | tools/hand_evaluator.py:62-66 | a hand that passes the flush test has a suit with at least five cards, and the suit loop stops on such a suit |
| HandEvaluator.FlushHandFacts | tools/hand_evaluator.py:68 | the flush hand holds cards of the flush suit only, as many as that suit's count, and no card twice when the hand has none twice |
| HandEvaluator.FlushHandCounts | tools/hand_evaluator.py:68 | the flush hand holds cards only, as many as the suit's count |
| HandEvaluator.FlushHandDistinct | tools/hand_evaluator.py:68 | filtering distinct cards keeps them distinct |
| HandEvaluator.FlushHandCards | tools/hand_evaluator.py:68 | the flush hand of a hand of cards holds cards only |
| HandEvaluator.SuitLetterIn | tools/hand_evaluator.py:68 | `flush_suit in k` on a card holds exactly when the card's second character is that suit |
| HandEvaluator.SuitedRankCountAtMostOne | tools/hand_evaluator.py:69-70 | among distinct cards of one suit no rank occurs twice |
| HandEvaluator.FlushRanks | tools/hand_evaluator.py:68-72 | a flush of distinct cards shows at least five ranks in its flush suit |
| HandEvaluator.StraightOrFlushShape | tools/hand_evaluator.py:47-83 | the straight and flush branch gives (1,) with the ace-extended ranks, or (3, 1, 2) with five window ranks, or (3, 1, 3) or (5,) with at least five flush ranks |
| HandEvaluator.Strength | tools/hand_evaluator.py:92-115 | the nine hand types have positions 0 to 8 |
| HandEvaluator.FinalScoresIncrease | tools/hand_evaluator.py:83-115 | (1,) < (2,1,1) < (2,2,1) < (3,1) < (3,1,2) < (3,1,3) < (3,2) < (4,) < (5,) in tuple order |
| HandEvaluator.FinishSeven | tools/hand_evaluator.py:85-117 | every score the seven-card branches can leave is upgraded and labelled without error, to one of the nine final scores with matching label and cut |
| HandEvaluator.ClassifySevenShapes | tools/hand_evaluator.py:36-83 | on every count pattern of seven distinct cards the shape branches succeed and leave one of the scores the label choice expects |
| HandEvaluator.SevenCardCategories | tools/hand_evaluator.py:27-119 | seven distinct cards always get a score: one of the nine final scores, labelled by its hand type, with the tie-break ranks cut to 5/4/3/3/5/5/2/2 from high card to four of a kind; a straight flush keeps all its flush ranks, at least five |
| HandEvaluator.ClassifyFullHouse | tools/hand_evaluator.py:36-38 | counts (3, 2) or (3, 3) give (3, 2) with the first two ranks, labelled FullHouse |
| HandEvaluator.ClassifyThreePairs | tools/hand_evaluator.py:39-42 | counts (2, 2, 2, 1) give (2, 2, 1) with the two pair ranks and the larger of the next two, labelled TwoPair |
| HandEvaluator.ClassifyQuads | tools/hand_evaluator.py:43-46 | a leading count of 4 gives (4,) with the two highest ranks |
| HandEvaluator.FinishQuads | tools/hand_evaluator.py:94-95 | (4,) is labelled four of a kind and keeps its two ranks |
| HandEvaluator.ClassifyLoneQuads | tools/hand_evaluator.py:45-46 | a hand of one rank only with four cards raises IndexError on the second sorted rank |
| HandEvaluator.FullHouseScore | tools/hand_evaluator.py:36-38 | a full house scores (3, 2) with the trips rank first and the pair rank second. The trips rank is the highest rank with three cards, so aces full beats sevens full |
| HandEvaluator.FullHouseRanks | tools/hand_evaluator.py:36-38 | in the sorted tally the first rank has three cards, the second has two or three, and no rank with three cards is higher than the first |
| HandEvaluator.ThreePairsScore | tools/hand_evaluator.py:39-42 | three pairs and a single score (2, 2, 1): the two higher pair ranks in descending order, then the better of the third pair's rank and the single's rank |
| HandEvaluator.ThreePairsRanks | tools/hand_evaluator.py:39-42 | in the sorted tally of that shape the first three ranks are pairs in descending order and the fourth is a single |
| HandEvaluator.FourOfAKindScore | tools/hand_evaluator.py:43-46 | a leading count of 4 scores (4,) with the two highest ranks present, whichever of them is the quads rank; a hand of one rank only raises IndexError |
| HandEvaluator.QuadsRanks | tools/hand_evaluator.py:45-46 | the two first sorted ranks are the highest and second-highest ranks present |
| HandEvaluator.TopTwoSorted | tools/hand_evaluator.py:45-46 | sorting distinct ranks puts the largest first and the second largest next |
| HandEvaluator.StraightOrFlushMeaning | tools/hand_evaluator.py:47-83 | the score is (3, 1, 3) or (5,) exactly when the hand has a flush. A plain straight (3, 1, 2) is reported with five consecutive ranks, the low ace counting as -1 |
| HandEvaluator.StraightOrFlushLabels | tools/hand_evaluator.py:60-83 | the flush branch gives (3, 1, 3) or (5,), and the other branch (1,) or (3, 1, 2) |
| HandEvaluator.StraightWindow | tools/hand_evaluator.py:49-58 | a straight keeps five consecutive ranks from the ace-extended sorted ranks |
| HandEvaluator.AceLowDistinct | tools/hand_evaluator.py:49-50 | appending the low ace -1 to distinct ranks keeps them distinct |
| HandEvaluator.ConsecutiveWindow | tools/hand_evaluator.py:52-57 | five strictly falling ranks whose ends differ by 4 are consecutive |
| HandEvaluator.SixCardPair | tools/hand_evaluator.py:33-34 | six cards with one pair, counts (2, 1, 1, 1, 1), are never re-read as a pair. They score whatever the straight and flush branch gives, so without a straight or flush they are a high card |
| HandEvaluator.ClassifySixPair | tools/hand_evaluator.py:47-90 | that shape goes to the straight and flush branch, whose score no upgrade changes |
| HandEvaluator.ClassifyFallsThrough | tools/hand_evaluator.py:36-47 | five or more counts with no full house, three pairs or quads go to the straight and flush branch |
| HandEvaluator.UpgradeKeepsSixPair | tools/hand_evaluator.py:85-90 | the six-card pair shape matches none of the upgrade shapes |
| HandEvaluator.SixFinish | tools/hand_evaluator.py:92-115 | the four straight and flush scores are labelled high card, straight, flush or straight flush, and keep their score |
| HandEvaluator.Codes | tools/hand_evaluator.py:23 | a label is compared as its sequence of character codes |
| HandEvaluator.LabelsDiffer | tools/hand_evaluator.py:92-115 | no two hand types share a label |
| HandEvaluator.BelowTotal | tools/hand_evaluator.py:23 | Python's `<` on (score, ranks, label) triples is a strict total order |
| HandEvaluator.BelowTransitive | tools/hand_evaluator.py:23 | that order is transitive |
| HandEvaluator.FirstBest | tools/hand_evaluator.py:23 | `sorted(..., reverse=True)[0]` picks a triple no other exceeds, and every earlier triple is strictly below it, because the stable sort keeps the earliest of equal best triples first |
| HandEvaluator.ScoreAll | tools/hand_evaluator.py:22 | scoring every hand succeeds exactly when each hand can be scored, and then holds each hand's score |
| HandEvaluator.Scores | tools/hand_evaluator.py:22 | one scoring result per hand, in order |
| HandEvaluator.ScoreAllFirstError | tools/hand_evaluator.py:22 | the comprehension raises the error of the first hand that cannot be scored |
| HandEvaluator.BestAtUnique | tools/hand_evaluator.py:20-24 | at most one position holds the first best hand |
| HandEvaluator.EvalBestHandBest | tools/hand_evaluator.py:20-24 | `eval_best_hand` returns the first hand whose score no other exceeds, with that hand's own label |
| HandEvaluator.EvalBestHandErrors | tools/hand_evaluator.py:20-24 | no hands raise IndexError, a hand that cannot be scored raises its error, and otherwise there is a best hand |
| HandEvaluator.IndexOf | tools/hand_evaluator.py:16 | `list.index` gives the first position holding the value |
| HandEvaluator.Combined | tools/hand_evaluator.py:11-13 | each player's hole cards followed by the table cards, one list per player |
| HandEvaluator.EvalBestHandIn | tools/hand_evaluator.py:24 | the returned hand is one of the hands given |
| HandEvaluator.GetWinnerIsBest | tools/hand_evaluator.py:9-17 | `get_winner` returns the first player whose combined hand no other exceeds, and the label of that hand |
| HandEvaluator.FirstBestIsBestAt | tools/hand_evaluator.py:22-23 | the first best score marks the first best hand |
| HandEvaluator.IndexOfFirstBest | tools/hand_evaluator.py:16 | looking the chosen hand up by its cards finds the chosen position: an earlier copy would score the same and would have been chosen |
| HandEvaluator.GetWinner | tools/hand_evaluator.py:9-17 | the append loop over the players computes the specified winner and label |
| HandEvaluator.Label | tools/hand_evaluator.py:92-115 | the nine label strings, with the source's spelling "FoufOfAKind". `HandEvaluator.LabelsDiffer` shows no two hand types share one |
| HandEvaluator.Counted | tools/hand_evaluator.py:29-30 | the reversed sorted (count, rank) pairs. `HandEvaluator.CountedTally` shows they are descending, with one pair per rank present and its true count |
| HandEvaluator.MaxSuitCount | tools/hand_evaluator.py:62 | `max(suits.count(s) for s in suits)`. `RankerAgreement.MaxSuitCountAtLeast` ties it to the count of each suit |
| HandEvaluator.HasFlush | tools/hand_evaluator.py:61-62 | the flush test. `HandEvaluator.StraightOrFlushMeaning` shows it alone decides the flush scores, and `RankerAgreement.HasFlushAgrees` matches it with the C++ test |
| HandEvaluator.FlushSuit | tools/hand_evaluator.py:64-66 | the suit loop over "CDHS". `HandEvaluator.FlushSuitFound` and `HandEvaluator.FlushSuitHasFive` show it stops on a suit with five cards |
| HandEvaluator.AceLow | tools/hand_evaluator.py:49-50 | `card_ranks + (-1,)` when an ace is present. `HandEvaluator.AceLowDistinct` shows the ranks stay distinct |
| HandEvaluator.StraightOrFlush | tools/hand_evaluator.py:47-83 | the branch for five or more counts. `HandEvaluator.StraightOrFlushShape`, `HandEvaluator.StraightOrFlushMeaning` and `HandEvaluator.StraightWindow` state its four outcomes |
| HandEvaluator.Upgrade | tools/hand_evaluator.py:85-90 | the re-reading of a bare high card by the original count shape. `HandEvaluator.FinishSeven` and `HandEvaluator.UpgradeKeepsSixPair` state its results |
| HandEvaluator.Finish | tools/hand_evaluator.py:92-117 | the label chain and the cuts of the tie-break ranks, with 'Card Type error!' for any other score. `HandEvaluator.FinishSeven` and `HandEvaluator.SixFinish` state its results |
| HandEvaluator.CalcScore | tools/hand_evaluator.py:27-119 | `_calc_score`. `HandEvaluator.CalcScoreStages` splits it into its stages, `HandEvaluator.SevenCardCategories` gives its result on every seven-card hand, and `RankerAgreement.CalcScoreAgrees` matches it with the C++ port |
| HandEvaluator.Below | tools/hand_evaluator.py:23 | Python's `<` on the score triples `sorted` compares. `HandEvaluator.BelowTotal` and `HandEvaluator.BelowTransitive` make it a strict total order |
| HandEvaluator.BestAt | tools/hand_evaluator.py:22-24 | the position `eval_best_hand` must pick: the first hand no other exceeds. `HandEvaluator.BestAtUnique` shows at most one position has it |
| HandEvaluator.EvalBestHand | tools/hand_evaluator.py:20-24 | `eval_best_hand`. `HandEvaluator.EvalBestHandBest` and `HandEvaluator.EvalBestHandErrors` state its result and its errors |
| HandEvaluator.GetWinnerSpec | tools/hand_evaluator.py:9-17 | `get_winner`. `HandEvaluator.GetWinnerIsBest` states its result, and `HandEvaluator.GetWinner` computes it with the append loop |
| MontecarloH.Clamp | tools/montecarlo_cpp/Montecarlo.h:20-23 | a bound above the size, or a negative one that the unsigned comparison turns huge, is clamped to the size; any other bound is kept |
| MontecarloH.Slice | tools/montecarlo_cpp/Montecarlo.h:17-29 | `slice(v, m, n)` returns v from the clamped m up to the clamped n, in order; the caller must keep the clamped m at most the clamped n |
| MontecarloH.SlicePrefix | tools/montecarlo_cpp/Montecarlo.h:17-29 | `slice(v, 0, k)` is the prefix of length min(k, size), the same as Python's `v[:k]` |
| MontecarloH.SliceSplit | tools/montecarlo_cpp/Montecarlo.h:17-29 | the slices before and after a cut together give v |
| MontecarloH.Hand.constructor | tools/montecarlo_cpp/Montecarlo.h:36 | a default hand holds no cards |
| MontecarloH.Hand.FromCards | tools/montecarlo_cpp/Montecarlo.h:38 | a hand built from a set holds that set |
| MontecarloH.Hand.Insert | tools/montecarlo_cpp/Montecarlo.h:42-44 | `insert` adds the card to the set, and inserting a card already there changes nothing |
| MontecarloH.Hand.InsertHand | tools/montecarlo_cpp/Montecarlo.h:46-49 | `insert_hand` leaves the union of the two hands, also when the other hand is this one |
| Montecarlo.RankCounts | tools/montecarlo_cpp/Montecarlo.cpp:44-45 | `std::count` of each rank 0..12 over the collected ranks is the number of cards of that rank |
| Montecarlo.PairsToMeaning | tools/montecarlo_cpp/Montecarlo.cpp:44-49 | the rank loop pushes exactly the positive counts, each with its rank, in ascending rank |
| Montecarlo.PairsToEntries | tools/montecarlo_cpp/Montecarlo.cpp:46-48 | every pushed pair holds a positive count with its own rank |
| Montecarlo.PairsToAscending | tools/montecarlo_cpp/Montecarlo.cpp:44-49 | pushed pairs come in strictly ascending rank |
| Montecarlo.PairsToComplete | tools/montecarlo_cpp/Montecarlo.cpp:44-49 | every rank with a positive count gets its pair |
| Montecarlo.PairsToTally | tools/montecarlo_cpp/Montecarlo.cpp:44-49 | over all ranks the pushed pairs tally the counts |
| Montecarlo.PairsToSum | tools/montecarlo_cpp/Montecarlo.cpp:44-49 | the pushed counts add up to all the counts |
| Montecarlo.RankCountsSum | tools/montecarlo_cpp/Montecarlo.cpp:41-45 | the counts of the ranks below n add up to the number of cards ranked below n |
| Montecarlo.RcountsMeaning | tools/montecarlo_cpp/Montecarlo.cpp:37-51 | `get_rcounts` yields one pair per rank present with its count, in ascending rank, and the counts add up to the size of the card set |
| Montecarlo.RankedAdd | tools/montecarlo_cpp/Montecarlo.cpp:41-43 | one more card raises the count of its own rank only |
| Montecarlo.CollectRanks | tools/montecarlo_cpp/Montecarlo.cpp:41-43 | the first loop collects each rank exactly as often as cards of that rank are in the set |
| Montecarlo.RanksStep | tools/montecarlo_cpp/Montecarlo.cpp:41-43 | one round of that loop keeps its tally invariant |
| Montecarlo.GetRcounts | tools/montecarlo_cpp/Montecarlo.cpp:37-51 | the two loops of `get_rcounts` compute its specification |
| Montecarlo.SuitTally | tools/montecarlo_cpp/Montecarlo.cpp:129-136 | the count of each of "C", "D", "H", "S" is the number of cards of that suit |
| Montecarlo.SuitOrder | tools/montecarlo_cpp/Montecarlo.cpp:137 | "C" < "D" < "H" < "S", so sorting (count, suit) pairs orders the suits as their positions |
| Montecarlo.SuitCountsNonEmpty | tools/montecarlo_cpp/Montecarlo.cpp:138 | a non-empty card set has a suit that occurs, so `rsuits[0]` exists |
| Montecarlo.SuitedAdd | tools/montecarlo_cpp/Montecarlo.cpp:125-127 | one more card raises the count of its own suit only |
| Montecarlo.SuitsStep | tools/montecarlo_cpp/Montecarlo.cpp:125-127 | one round of the suit loop keeps its tally invariant |
| Montecarlo.CountSuits | tools/montecarlo_cpp/Montecarlo.cpp:125-136 | the suit loops push (count, suit) for each suit that occurs, in "CDHS" order |
| Montecarlo.CollectSuited | tools/montecarlo_cpp/Montecarlo.cpp:143-148 | the flush-hand loop keeps exactly the cards whose second character is the flush suit |
| Montecarlo.SuitedInsert | tools/montecarlo_cpp/Montecarlo.cpp:144-148 | one more card joins the flush hand exactly when it has the suit |
| Montecarlo.SplitPairs | tools/montecarlo_cpp/Montecarlo.cpp:72-77 | the split loop pushes each pair's count onto `score` and its rank onto `card_ranks`, in order |
| Montecarlo.ScanForStraight | tools/montecarlo_cpp/Montecarlo.cpp:114-122 | the straight loop finds the first five-rank window whose ends differ by 4, as the Python scan does |
| Montecarlo.SortedSuitsInRange | tools/montecarlo_cpp/Montecarlo.cpp:137-142 | every sorted suit pair names a suit and holds that suit's number of cards |
| Montecarlo.FlushRanksAtLeastFive | tools/montecarlo_cpp/Montecarlo.cpp:150-169 | a suit with five cards shows five ranks, so the loop bound `card_ranks.size() - 4` of the flush straight test does not wrap around |
| Montecarlo.CppStraightOrFlush | tools/montecarlo_cpp/Montecarlo.cpp:178-186 | the straight and flush flags map to {1}, {3, 1, 2}, {3, 1, 3} or {5} |
| Montecarlo.CppClassify | tools/montecarlo_cpp/Montecarlo.cpp:83-187 | the C++ shape branches always leave a non-empty score |
| Montecarlo.CppCalcScoreStages | tools/montecarlo_cpp/Montecarlo.cpp:53-237 | `calc_score` is the shape branch, then the upgrade, then the label |
| Montecarlo.FlushRanksCpp | tools/montecarlo_cpp/Montecarlo.cpp:142-167 | the flush branch computes the flush hand's ranks with the low ace, at least five of them for a flush |
| Montecarlo.RankScanCpp | tools/montecarlo_cpp/Montecarlo.cpp:109-122 | the ace-low extension, sort and first straight loop compute their specification |
| Montecarlo.StraightOrFlushCpp | tools/montecarlo_cpp/Montecarlo.cpp:106-187 | the straight and flush branch computes its specification |
| Montecarlo.ClassifyCpp | tools/montecarlo_cpp/Montecarlo.cpp:83-187 | the shape branches compute their specification |
| Montecarlo.CalcScoreCpp | tools/montecarlo_cpp/Montecarlo.cpp:53-237 | `calc_score` computes its specification |
| Montecarlo.MaxScored | tools/montecarlo_cpp/Montecarlo.cpp:28 | the triple `std::sort` with `std::greater` puts first is one of the triples, and none is above it |
| Montecarlo.MaxStep | tools/montecarlo_cpp/Montecarlo.cpp:28 | the maximum over a longer list is the first element or the maximum of the rest |
| Montecarlo.CppScores | tools/montecarlo_cpp/Montecarlo.cpp:21-25 | one score per player's card set, in order |
| Montecarlo.CppEvalBestHandMeaning | tools/montecarlo_cpp/Montecarlo.cpp:14-35 | `eval_best_hand` is true exactly when no player's triple is above the first player's, so a tie for the best counts as a win |
| Montecarlo.MaxIsFirst | tools/montecarlo_cpp/Montecarlo.cpp:28-29 | the greatest triple equals the first exactly when no triple is above the first |
| Montecarlo.CppEvalBestHandErrors | tools/montecarlo_cpp/Montecarlo.cpp:14-35 | no players read `all_players_score[0]` out of bounds, and otherwise the result fails exactly when some player's cards cannot be scored |
| Montecarlo.EvalBestHandCpp | tools/montecarlo_cpp/Montecarlo.cpp:14-35 | the scoring loop and the comparison compute the specification |
| Montecarlo.ScorePlayer | tools/montecarlo_cpp/Montecarlo.cpp:23-24 | one round of the scoring loop scores that player |
| Montecarlo.ScoreAllCpp | tools/montecarlo_cpp/Montecarlo.cpp:21-25 | the scoring loop gives every player's triple, or the first error |
| Montecarlo.DeckCard | tools/montecarlo_cpp/Montecarlo.cpp:266-268 | round k of the nested loops builds a card |
| Montecarlo.DeckUpToNext | tools/montecarlo_cpp/Montecarlo.cpp:266-270 | the round for rank r and suit s adds that card |
| Montecarlo.DeckUpToAdd | tools/montecarlo_cpp/Montecarlo.cpp:266-270 | each round adds its card to the cards of the earlier rounds |
| Montecarlo.FullDeckCards | tools/montecarlo_cpp/Montecarlo.cpp:263-273 | the constructor builds 52 distinct cards, and every card is among them |
| Montecarlo.RemainingCount | tools/montecarlo_cpp/Montecarlo.cpp:275-291 | taking the visible cards out of the full deck leaves 52 less their number and none of them |
| Montecarlo.CombinedSets | tools/montecarlo_cpp/Montecarlo.cpp:327-338 | each hand joined with the table cards, one set per player |
| Montecarlo.Deck.constructor | tools/montecarlo_cpp/Montecarlo.cpp:263-273 | the constructor's loops fill the full deck, and the other sets start empty |
| Montecarlo.Deck.RemoveVisibleCards | tools/montecarlo_cpp/Montecarlo.cpp:275-291 | both `set_difference`s add, through `std::inserter`, to whatever the target sets hold: full deck less my cards, then that less the table. The visible cards are recorded |
| Montecarlo.Deck.GetCardsCombined | tools/montecarlo_cpp/Montecarlo.cpp:327-338 | `get_cards_combined` gives each player's hand with the table cards |
| Montecarlo.Ranked | tools/montecarlo_cpp/Montecarlo.cpp:41-45 | the cards of one rank, which `std::count` counts. `Montecarlo.RankCounts` and `Montecarlo.RankedAdd` state the counts |
| Montecarlo.PairsTo | tools/montecarlo_cpp/Montecarlo.cpp:44-49 | what the rank loop has pushed. `Montecarlo.PairsToMeaning` states exactly which pairs, in which order |
| Montecarlo.Rcounts | tools/montecarlo_cpp/Montecarlo.cpp:37-51 | `get_rcounts`. `Montecarlo.RcountsMeaning` states its pairs, and `Montecarlo.GetRcounts` shows the two loops compute it |
| Montecarlo.Suited | tools/montecarlo_cpp/Montecarlo.cpp:143-148 | the cards of one suit. `Montecarlo.SuitTally` counts them, and `Montecarlo.CollectSuited` shows the flush-hand loop builds them |
| Montecarlo.SuitCounts | tools/montecarlo_cpp/Montecarlo.cpp:125-136 | the (count, suit) pairs of the suit loops. `Montecarlo.CountSuits` and `Montecarlo.SortedSuitsInRange` state them |
| Montecarlo.CppFlushRanks | tools/montecarlo_cpp/Montecarlo.cpp:142-167 | the flush suit's ranks, descending, with the low ace. `Montecarlo.FlushRanksCpp` shows the loops compute them, and `Montecarlo.FlushRanksAtLeastFive` that a flush has five |
| Montecarlo.CppRankScan | tools/montecarlo_cpp/Montecarlo.cpp:109-122 | the first straight test. `Montecarlo.RankScanCpp` shows the loops compute it, and `Montecarlo.ScanForStraight` matches its loop with the Python scan |
| Montecarlo.CppUpgrade | tools/montecarlo_cpp/Montecarlo.cpp:188-193 | the `potential_*` upgrade. `RankerAgreement.UpgradeAgrees` matches it with the Python upgrade |
| Montecarlo.CppFinish | tools/montecarlo_cpp/Montecarlo.cpp:195-233 | the C++ label chain. `RankerAgreement.FinishAgrees` matches it with the Python chain |
| Montecarlo.CppCalcScore | tools/montecarlo_cpp/Montecarlo.cpp:53-237 | `calc_score`. `Montecarlo.CppCalcScoreStages` splits it into its stages, `Montecarlo.CalcScoreCpp` shows the code computes it, and `RankerAgreement.CalcScoreAgrees` matches it with the Python ranker |
| Montecarlo.CppScoreAll | tools/montecarlo_cpp/Montecarlo.cpp:21-25 | the scoring loop of `eval_best_hand`. `Montecarlo.ScoreAllCpp` shows the loop computes it |
| Montecarlo.CppEvalBestHand | tools/montecarlo_cpp/Montecarlo.cpp:14-35 | `eval_best_hand`. `Montecarlo.CppEvalBestHandMeaning` and `Montecarlo.CppEvalBestHandErrors` state its result and errors, and `Montecarlo.EvalBestHandCpp` shows the code computes it |
| Montecarlo.DeckUpTo | tools/montecarlo_cpp/Montecarlo.cpp:266-270 | the cards the constructor's loops have built. `Montecarlo.DeckUpToNext` states what each round adds |
| Montecarlo.DeckUpToNew | tools/montecarlo_cpp/Montecarlo.cpp:266-270 | each round adds no card but its own |
| Montecarlo.DeckUpToGrows | tools/montecarlo_cpp/Montecarlo.cpp:266-270 | each round keeps the cards built before and adds its own |
| Montecarlo.FullDeck | tools/montecarlo_cpp/Montecarlo.cpp:263-273 | the deck the constructor builds. `Montecarlo.FullDeckCards` shows it holds exactly the 52 cards |
| Montecarlo.Remaining | tools/montecarlo_cpp/Montecarlo.cpp:275-291 | the full deck less my cards and the table cards. `Montecarlo.RemainingCount` counts it |
| Montecarlo.FreshDeckWithout | tools/montecarlo_cpp/Montecarlo.cpp:242-249 | the head of each round of `montecarlo()`: fewer than three table cards count as none, and a new deck with the visible cards removed holds exactly the remaining cards, 52 less the visible ones, none of them visible |
| RankerAgreement.SetOf | tools/montecarlo_cpp/Montecarlo.h:33 | the `std::set` a list of cards becomes holds exactly the list's cards |
| RankerAgreement.SetOfCards | tools/montecarlo_cpp/Montecarlo.h:33 | the set of a list of cards holds cards only |
| RankerAgreement.RanksAgree | tools/montecarlo_cpp/Montecarlo.cpp:41-45 | counting a rank in a list without repeats gives the same number as counting it in the list's set |
| RankerAgreement.CountedIsSortedRcounts | tools/montecarlo_cpp/Montecarlo.cpp:68-71 | the sorted (count, rank) pairs of the C++ ranker equal those of the Python ranker |
| RankerAgreement.SuitCountAgrees | tools/montecarlo_cpp/Montecarlo.cpp:125-136 | counting a suit among a list's suit letters gives the same number as counting it in the list's set |
| RankerAgreement.MaxSuitCountAtLeast | tools/hand_evaluator.py:62 | `max(suits.count(s) for s in suits)` is at least the count of each suit present |
| RankerAgreement.SuitsMax | tools/montecarlo_cpp/Montecarlo.cpp:137-138 | the first sorted suit pair holds the largest suit count |
| RankerAgreement.HasFlushAgrees | tools/montecarlo_cpp/Montecarlo.cpp:137-138 | the Python flush test and the C++ one, where the most frequent suit has five cards, agree |
| RankerAgreement.FlushSuitIn | tools/hand_evaluator.py:64-66 | the suit loop ends on a suit of "CDHS" |
| RankerAgreement.FlushSuitAgrees | tools/montecarlo_cpp/Montecarlo.cpp:142 | on nine cards or fewer, the first suit with five cards in "CDHS" order is the most frequent suit |
| RankerAgreement.TwoFlushSuits | tools/montecarlo_cpp/Montecarlo.cpp:137-142 | two different suits with five cards each need ten cards |
| RankerAgreement.FlushRanksAgree | tools/montecarlo_cpp/Montecarlo.cpp:143-160 | the C++ flush ranks, sorted pairs of the suited set, are the Python sorted ranks of the flush hand |
| RankerAgreement.StraightOrFlushAgrees | tools/montecarlo_cpp/Montecarlo.cpp:106-187 | on nine cards or fewer the C++ straight and flush branch gives the Python result |
| RankerAgreement.NoFlushCaseAgrees | tools/montecarlo_cpp/Montecarlo.cpp:178-182 | without a flush both rankers score the same from the straight test |
| RankerAgreement.FlushCaseAgrees | tools/montecarlo_cpp/Montecarlo.cpp:140-186 | with a flush, the same suit and flush ranks give the same score |
| RankerAgreement.FlushBranchAgrees | tools/montecarlo_cpp/Montecarlo.cpp:140-167 | with a flush both rankers pick the same suit and the same flush ranks with the low ace |
| RankerAgreement.ThreePairsTestsAgree | tools/montecarlo_cpp/Montecarlo.cpp:84-94 | on seven cards or fewer the C++ test `slice(score, 0, 5) == {2, 2, 2, 1}` agrees with Python's `score[0:4] == (2, 2, 2, 1)` |
| RankerAgreement.FifthCountOverflows | tools/montecarlo_cpp/Montecarlo.cpp:84-94 | three pairs and a single followed by any further count make at least eight cards |
| RankerAgreement.ThreePairsTestsDifferOnEight | tools/montecarlo_cpp/Montecarlo.cpp:84-94 | on eight cards with counts (2, 2, 2, 1, 1) the two three-pairs tests differ |
| RankerAgreement.ClassifyAgreesGiven | tools/montecarlo_cpp/Montecarlo.cpp:83-187 | when those tests agree and the straight and flush branches agree, the shape branches agree, up to the name of the error for a lone rank of four cards |
| RankerAgreement.PairedShapesAgree | tools/montecarlo_cpp/Montecarlo.cpp:87-98 | the full house and three pairs branches agree |
| RankerAgreement.OtherShapesAgree | tools/montecarlo_cpp/Montecarlo.cpp:99-187 | the four of a kind, straight and flush, and fall-through branches agree, up to the name of the error |
| RankerAgreement.UpgradeAgrees | tools/montecarlo_cpp/Montecarlo.cpp:188-193 | the C++ upgrade tests `score[0] == 1` where Python tests `score == (1,)`; they agree when a score led by 1 is the bare high card or the count shape |
| RankerAgreement.StraightOrFlushScores | tools/hand_evaluator.py:83 | the straight and flush branch scores (1,), (3, 1, 2), (3, 1, 3) or (5,) |
| RankerAgreement.ClassifyLeadingOne | tools/hand_evaluator.py:36-83 | a Python shape result led by 1 is the bare high card or the count shape itself |
| RankerAgreement.FinishAgrees | tools/montecarlo_cpp/Montecarlo.cpp:195-233 | the two label chains agree, because `slice(v, 0, k)` is `v[:k]` |
| RankerAgreement.CalcScoreAgrees | tools/montecarlo_cpp/Montecarlo.cpp:53-237 | on a list of at most seven distinct cards, `calc_score` of its set fails exactly when `_calc_score` of the list does, and otherwise gives the same triple |
| RankerAgreement.ShapesAgree | tools/montecarlo_cpp/Montecarlo.cpp:83-187 | on one to seven distinct cards the shape branches of both rankers agree |
| RankerAgreement.ShapeTestsAgree | tools/montecarlo_cpp/Montecarlo.cpp:84-94 | on one to seven cards the three-pairs tests agree |
| RankerAgreement.ErrorsAgree | tools/montecarlo_cpp/Montecarlo.cpp:99-105 | when the shape branches fail in both rankers, both scores fail |
| RankerAgreement.StagesAgree | tools/montecarlo_cpp/Montecarlo.cpp:188-233 | once the shape branches agree, the upgrade and the label agree |
| RankerAgreement.TailAgrees | tools/montecarlo_cpp/Montecarlo.cpp:188-233 | the upgrade and the label agree on every shape result both rankers produce |
| RankerAgreement.CppCombined | tools/montecarlo_cpp/Montecarlo.cpp:327-338 | the set each player's combined cards become |
| RankerAgreement.ScoresAgree | tools/montecarlo_cpp/Montecarlo.cpp:21-25 | every player's seven or fewer distinct cards score the same in both rankers |
| RankerAgreement.WinnerAgrees | tools/montecarlo_cpp/Test.cpp:7-174 | on hands of at most seven distinct cards, the C++ `eval_best_hand` fails exactly when `get_winner` does, and otherwise says true exactly when `get_winner` names player 0 |
| RankerAgreement.WinnerFailuresAgree | tools/montecarlo_cpp/Montecarlo.cpp:14-35 | both rankers fail on the same hands |
| RankerAgreement.WinnerFirstAgrees | tools/montecarlo_cpp/Montecarlo.cpp:14-35 | where both succeed, the C++ answer is true exactly when the Python winner is player 0 |
| EnvCycle.Initial | gym_env/env.py:638-657 | construction runs `new_hand_reset` and then sets `folder` back to None, leaving a well-formed cycle |
| EnvCycle.AfterNewHandReset | gym_env/env.py:659-665 | `new_hand_reset` keeps the cycle well formed |
| EnvCycle.AfterNewRoundReset | gym_env/env.py:667-673 | `new_round_reset` keeps the cycle well formed |
| EnvCycle.AfterNextPlayerMoved | gym_env/env.py:681-685 | moving `step` seats lands on a seat and keeps the cycle well formed |
| EnvCycle.AfterDeactivatePlayer | gym_env/env.py:731-734 | `deactivate_player` keeps the cycle well formed when its assertion holds |
| EnvCycle.AfterDeactivateCurrent | gym_env/env.py:736-739 | `deactivate_current` keeps the cycle well formed when its assertion holds |
| EnvCycle.AfterMarkFolder | gym_env/env.py:741-743 | `mark_folder` keeps the cycle well formed; item assignment on a None `folder` raises TypeError |
| EnvCycle.AfterMarkOutOfCash | gym_env/env.py:753-756 | `mark_out_of_cash_but_contributed` keeps the cycle well formed when its assertion holds |
| EnvCycle.AfterUpdateAlive | gym_env/env.py:767-770 | `update_alive` keeps the cycle well formed |
| EnvCycle.PotentialWinners | gym_env/env.py:772-777 | one flag per seat |
| EnvCycle.NextPlayerTooFew | gym_env/env.py:677-679 | with fewer than two seats eligible, `next_player` returns False and changes nothing |
| EnvCycle.NextPlayerStops | gym_env/env.py:681-697 | `next_player` returns False after moving when the counter reaches `max_steps_total` (>=), or exceeds `max_steps_after_raiser` plus the raiser step (0 when no raiser or a raise at step 0), or when checkers equal the alive count |
| EnvCycle.NextPlayerSeat | gym_env/env.py:675-711 | a returned seat can move. It is the first such seat at or after idx + step, the counter grows by step plus the number of seats skipped, and alive becomes move-or-all-in. No seat flag changes |
| EnvCycle.NextPlayerSkips | gym_env/env.py:686-711 | a seat comes back only when none of the three stops applied, through the skip loop |
| EnvCycle.NextPlayerGoesOn | gym_env/env.py:699-711 | when none of the three stops applies, `next_player` runs the skip loop |
| EnvCycle.SkipSeat | gym_env/env.py:699-711 | the seat the skip loop returns can move and is the first such seat from where it starts |
| EnvCycle.NextPlayerNeverReturns | gym_env/env.py:699-708 | without `max_steps_total`, `next_player` spins forever exactly when no seat can move |
| EnvCycle.DeactivateOnlyThatSeat | gym_env/env.py:731-734 | `deactivate_player` fails its assertion on a seat already out, and otherwise clears that seat's flag and nothing else |
| EnvCycle.OutOfCashMarked | gym_env/env.py:753-756 | an all-in seat is marked and deactivated, and nothing else changes |
| EnvCycle.FoldedCannotWin | gym_env/env.py:736-743 | a fold clears the seat's move flag and marks it folded, so it is no longer a potential winner |
| EnvCycle.BigBlindWindow | gym_env/env.py:758-765 | after `mark_bb`, raising is allowed for one more circle of the table, and `max_steps_total` becomes counter + 2n |
| EnvCycle.NewHandResetMeaning | gym_env/env.py:659-665 | after `new_hand_reset` every seat can move, none is all in or folded, every seat is a potential winner, and the counter is 0 on the start seat |
| EnvCycle.NextPlayerAfterGap | gym_env/env.py:675-711 | when nothing stops it, `next_player` returns the first seat that can move, k seats past the one `step` lands on |
| EnvCycle.NextPlayerFound | gym_env/env.py:699-711 | the skip loop finding a seat gives `next_player`'s whole result and new state |
| EnvCycle.MaxRoundsCycle | tests/test_gym_env.py:78-79 | the test's cycle is well formed |
| EnvCycle.MaxRoundsFirstCalls | tests/test_gym_env.py:80-83 | the first three calls of `test_cycle_max_rounds` return seats 3, 0 and 1 |
| EnvCycle.MaxRoundsCall | tests/test_gym_env.py:80-83 | each step-1 call before the limit moves to the next seat |
| EnvCycle.MaxRoundsLastCalls | tests/test_gym_env.py:84-88 | the step-2 call brings the counter to 5 = `max_steps_total` and, because this class stops at >=, returns False rather than 'utg'; the next call leaves the counter at 6 and returns False |
| EnvCycle.ForeverCycle | tests/test_gym_env.py:56-57 | the test's six-seat cycle with default settings |
| EnvCycle.ForeverFlags | tests/test_gym_env.py:62 | five seats can move once seat 3 is deactivated |
| EnvCycle.ForeverLateFlags | tests/test_gym_env.py:69-71 | only seats 4 and 5 can move once seats 0, 1 and 2 are also deactivated |
| EnvCycle.ForeverOpening | tests/test_gym_env.py:58-61 | the first two calls return 'sb' (1) and 'utg' (3) |
| EnvCycle.ForeverCall | gym_env/env.py:675-711 | a call on the test's cycle that lands on a seat able to move returns that seat |
| EnvCycle.ForeverDeactivate | tests/test_gym_env.py:62 | deactivating the current seat 3 leaves the other five |
| EnvCycle.ForeverSkipsDeactivated | tests/test_gym_env.py:63-64 | the step-6 call lands on seat 3 again, skips it and returns 'utg1' (4), the second round having begun |
| EnvCycle.ForeverSecondRound | tests/test_gym_env.py:65-68 | the next two calls return 'utg2' (5) and 'dealer' (0) |
| EnvCycle.ForeverDeactivateThree | tests/test_gym_env.py:69-71 | deactivating seats 0, 1 and 2 by index leaves seats 4 and 5 |
| EnvCycle.ForeverFinalSeat | tests/test_gym_env.py:72-73 | the step-2 call skips seats 2 and 3 and returns 'utg1' (4) |
| EnvCycle.ForeverLateCall | tests/test_gym_env.py:72-73 | that call on any state of the test holding those flags |
| EnvCycle.PlayerCycle.constructor | gym_env/env.py:638-657 | the constructor leaves the initial state |
| EnvCycle.PlayerCycle.NewHandReset | gym_env/env.py:659-665 | the method leaves the `new_hand_reset` state |
| EnvCycle.PlayerCycle.NewRoundReset | gym_env/env.py:667-673 | the method leaves the `new_round_reset` state |
| EnvCycle.PlayerCycle.NextPlayer | gym_env/env.py:675-711 | `next_player` with its `while True` loop returns the seat, False, or the endless-loop error of its specification, and leaves the specified state. The lemmas above say what that seat and state are |
| EnvCycle.PlayerCycle.MoveBy | gym_env/env.py:681-685 | the move before the checks |
| EnvCycle.PlayerCycle.SkipFolded | gym_env/env.py:699-711 | the skip loop, `update_alive` and the seat returned |
| EnvCycle.PlayerCycle.StopAt | gym_env/env.py:706-711 | on a limit stop the cycle stays where the loop stopped; on a seat it also refreshes alive and returns that seat |
| EnvCycle.PlayerCycle.NextDealer | gym_env/env.py:713-725 | `next_dealer` moves the dealer to the first seat after it that can move, and spins forever when there is none |
| EnvCycle.PlayerCycle.SeekDealer | gym_env/env.py:718-723 | the dealer loop stops on the first seat from the dealer seat on that can move |
| EnvCycle.PlayerCycle.SetIdx | gym_env/env.py:727-729 | `set_idx` sets the current seat |
| EnvCycle.PlayerCycle.DeactivatePlayer | gym_env/env.py:731-734 | raises AssertionError on a seat already out, or IndexError on a bad index, and otherwise clears only that seat's flag |
| EnvCycle.PlayerCycle.DeactivateCurrent | gym_env/env.py:736-739 | raises AssertionError when the current seat is already out, and otherwise clears only its flag |
| EnvCycle.PlayerCycle.MarkFolder | gym_env/env.py:741-743 | raises TypeError while `folder` is None, and otherwise marks the current seat folded |
| EnvCycle.PlayerCycle.MarkRaiser | gym_env/env.py:745-747 | `last_raiser` becomes the counter |
| EnvCycle.PlayerCycle.MarkChecker | gym_env/env.py:749-751 | checkers rise by one |
| EnvCycle.PlayerCycle.MarkOutOfCashButContributed | gym_env/env.py:753-756 | marks the current seat all in and then deactivates it, raising AssertionError when it was already out |
| EnvCycle.PlayerCycle.MarkBb | gym_env/env.py:758-761 | `last_raiser_step` = counter + n and `max_steps_total` = counter + 2n |
| EnvCycle.PlayerCycle.RaisingAllowed | gym_env/env.py:763-765 | `counter <= last_raiser_step`; comparing with a None `last_raiser_step` raises TypeError |
| EnvCycle.PlayerCycle.UpdateAlive | gym_env/env.py:767-770 | alive becomes the or of move and all-in flags |
| EnvCycle.PlayerCycle.GetPotentialWinners | gym_env/env.py:772-777 | returns the potential winners of the current state |
| EnvCycle.AfterNextPlayer | gym_env/env.py:675-711 | `next_player`. `EnvCycle.NextPlayerTooFew`, `EnvCycle.NextPlayerStops`, `EnvCycle.NextPlayerSeat` and `EnvCycle.NextPlayerNeverReturns` characterise it |
| EnvCycle.RaiserReference | gym_env/env.py:690 | `last_raiser if last_raiser else 0`. `EnvCycle.NextPlayerSkips` and `EnvCycle.NextPlayerStops` use it as the reference of the raiser limit |
| EnvCycle.AfterSkip | gym_env/env.py:699-711 | the skip loop, `update_alive` and the seat returned. `EnvCycle.SkipSeat` and `EnvCycle.SkipFoundState` state its result |
| EnvCycle.AfterNextDealer | gym_env/env.py:713-725 | `next_dealer`. `Seats.NextSeat` and `Seats.NextSeatFirst` give its seat, and `EnvCycle.PlayerCycle.NextDealer` is proved against it |
| EnvCycle.AfterSetIdx | gym_env/env.py:727-729 | `set_idx`; `EnvCycle.PlayerCycle.SetIdx` is proved against it |
| EnvCycle.AfterMarkRaiser | gym_env/env.py:745-747 | `mark_raiser`; `EnvCycle.PlayerCycle.MarkRaiser` is proved against it |
| EnvCycle.AfterMarkChecker | gym_env/env.py:749-751 | `mark_checker`; `EnvCycle.PlayerCycle.MarkChecker` is proved against it |
| EnvCycle.AfterMarkBb | gym_env/env.py:758-761 | `mark_bb`. `EnvCycle.BigBlindWindow` states the raising window it opens |
| EnvCycle.IsRaisingAllowed | gym_env/env.py:763-765 | `is_raising_allowed`. `EnvCycle.BigBlindWindow` and `Env.LegalMovesMeaning` state when it allows a raise |
| EnvCycle.OpeningCycle | gym_env/env.py:139-140 | the cycle `reset()` builds for six players is well formed |
| EnvCycle.OpeningDealer | gym_env/env.py:713-725 | in the first hand of `test_init_env`, `next_dealer` moves the dealer from -1 to seat 0 |
| EnvCycle.OpeningSeats | tests/test_gym_env.py:17-21 | in that hand's preflop street the small blind is seat 1 and the big blind seat 2, and seat 3 (utg) acts first, as the test asserts |
| EnvCycle.OpeningCall | gym_env/env.py:675-711 | a step-1 call early in that street moves to the next seat |
| Cycle.Initial | gym_env/cycle.py:13-37 | construction runs `new_hand_reset`, sets `folder` back to None and opens a no-raise window of one step per seat, leaving a well-formed cycle |
| Cycle.AfterNewHandReset | gym_env/cycle.py:39-45 | `new_hand_reset` keeps the cycle well formed |
| Cycle.AfterNewStreetReset | gym_env/cycle.py:47-55 | `new_street_reset` keeps the cycle well formed |
| Cycle.AfterDeactivatePlayer | gym_env/cycle.py:121-124 | `deactivate_player` keeps the cycle well formed when its assertion holds |
| Cycle.AfterDeactivateCurrent | gym_env/cycle.py:126-129 | `deactivate_current` keeps the cycle well formed when its assertion holds |
| Cycle.AfterMarkFolder | gym_env/cycle.py:131-133 | `mark_folder` keeps the cycle well formed; item assignment on a None `folder` raises TypeError |
| Cycle.AfterMarkOutOfCash | gym_env/cycle.py:143-146 | `mark_out_of_cash_but_contributed` keeps the cycle well formed when its assertion holds |
| Cycle.AfterUpdateAlive | gym_env/cycle.py:157-160 | `update_alive` keeps the cycle well formed |
| Cycle.PotentialWinners | gym_env/cycle.py:162-167 | one flag per seat |
| Cycle.NewHandResetMeaning | gym_env/cycle.py:39-45 | after `new_hand_reset` every seat can move, none is all in or folded, every seat is a potential winner, and the step counter is 0 on the start seat |
| Cycle.NewStreetResetMeaning | gym_env/cycle.py:47-55 | `new_street_reset` puts the step counter and round number at 0 on the dealer's seat, forgets the raiser and the checkers, and sets `last_raiser_step` to n. The no-raise window becomes n - 1, and raising is allowed up to step n. The seats' flags are kept |
| Cycle.NextPlayerTooFew | gym_env/cycle.py:59-61 | with fewer than two seats eligible, `next_player` returns False and changes nothing |
| Cycle.NextPlayerStops | gym_env/cycle.py:63-87 | after moving, `next_player` returns False once the step counter exceeds `max_steps_total` (strictly), or exceeds the raiser's step plus the no-raise window or plus `max_steps_after_raiser`. With no raiser and `max_steps_after_raiser` set, it stops once the counter exceeds `max_steps_after_big_blind` + 2, and it stops when checkers equal the alive count |
| Cycle.NextPlayerNeedsBigBlindSetting | gym_env/cycle.py:80-81 | with no raiser and `max_steps_after_raiser` set but `max_steps_after_big_blind` None, the addition raises TypeError |
| Cycle.NextPlayerSeat | gym_env/cycle.py:57-101 | a returned seat can move. It is the first such seat at or after idx + step, the step counter grows by step plus the seats skipped, and alive becomes move-or-all-in. No seat flag changes |
| Cycle.NextPlayerSeatFromSkip | gym_env/cycle.py:89-101 | a seat can only come from the skip loop |
| Cycle.AfterNextPlayerMoved | gym_env/cycle.py:63-67 | moving `step` seats lands on a seat and keeps the cycle well formed |
| Cycle.SkipSeat | gym_env/cycle.py:89-101 | the seat the skip loop returns can move and is the first such seat from where it starts |
| Cycle.NextPlayerAfterGap | gym_env/cycle.py:57-101 | with no raiser and no limit reached, `next_player` returns the first seat that can move, k seats past the one `step` lands on. The skip loop's own `>=` test applies only once a seat is skipped |
| Cycle.NextPlayerFound | gym_env/cycle.py:89-101 | the skip loop finding a seat gives `next_player`'s whole result and new state |
| Cycle.NextPlayerGoesOn | gym_env/cycle.py:68-89 | with no raise recorded and no limit reached, `next_player` goes on to its checkers test and the skip loop |
| Cycle.NextPlayerNeverReturns | gym_env/cycle.py:89-98 | without `max_steps_total`, the skip loop spins forever exactly when no seat can move |
| Cycle.DeactivateOnlyThatSeat | gym_env/cycle.py:121-124 | `deactivate_player` fails its assertion on a seat already out, and otherwise clears that seat's flag and nothing else |
| Cycle.OutOfCashMarked | gym_env/cycle.py:143-146 | an all-in seat is marked and deactivated, and stays a potential winner unless it folded |
| Cycle.FoldedCannotWin | gym_env/cycle.py:126-133 | a fold clears the seat's move flag and marks it folded, so it is no longer a potential winner |
| Cycle.BigBlindWindow | gym_env/cycle.py:148-155 | after `mark_bb`, raising is allowed for one more circle of the table, and `max_steps_total` becomes step + n * `max_raises_per_player_round` + 2 |
| Cycle.MaxRoundsCycle | tests/test_gym_env.py:78-79 | the test's cycle built from this class is well formed |
| Cycle.MaxRoundsFirstCalls | tests/test_gym_env.py:80-83 | the first three calls return seats 3, 0 and 1 |
| Cycle.MaxRoundsCall | tests/test_gym_env.py:80-83 | each step-1 call before the limit moves to the next seat |
| Cycle.MaxRoundsLastCalls | tests/test_gym_env.py:84-88 | under the strict `>` the step-2 call reaches step 5 and still returns 'utg' (3), as the test expects; the next call reaches step 6 and returns False |
| Cycle.PlayerCycle.constructor | gym_env/cycle.py:13-37 | the constructor leaves the initial state |
| Cycle.PlayerCycle.NewHandReset | gym_env/cycle.py:39-45 | the method leaves the `new_hand_reset` state |
| Cycle.PlayerCycle.NewStreetReset | gym_env/cycle.py:47-55 | the method leaves the `new_street_reset` state |
| Cycle.PlayerCycle.RestartSteps | gym_env/cycle.py:49-51 | the step counters go back to 0 and the turn to the dealer's seat; nothing else changes |
| Cycle.PlayerCycle.ForgetRaises | gym_env/cycle.py:52-55 | the raiser, checkers and windows of the new street; nothing else changes |
| Cycle.PlayerCycle.NextPlayer | gym_env/cycle.py:57-101 | `next_player` with its `while True` loop returns the seat, False, TypeError or the endless-loop error of its specification, and leaves the specified state. The lemmas above say what that seat and state are |
| Cycle.PlayerCycle.MoveBy | gym_env/cycle.py:63-67 | the move before the checks |
| Cycle.PlayerCycle.SkipFolded | gym_env/cycle.py:89-101 | the skip loop, `update_alive` and the seat returned |
| Cycle.PlayerCycle.StopAt | gym_env/cycle.py:96-101 | on a limit stop the cycle stays where the loop stopped; on a seat it also refreshes alive and returns that seat |
| Cycle.PlayerCycle.NextDealer | gym_env/cycle.py:103-115 | `next_dealer` moves the dealer to the first seat after it that can move, and spins forever when there is none |
| Cycle.PlayerCycle.SeekDealer | gym_env/cycle.py:108-113 | the dealer loop stops on the first seat from the dealer seat on that can move |
| Cycle.PlayerCycle.SetIdx | gym_env/cycle.py:117-119 | `set_idx` sets the current seat |
| Cycle.PlayerCycle.DeactivatePlayer | gym_env/cycle.py:121-124 | raises AssertionError on a seat already out, or IndexError on a bad index, and otherwise clears only that seat's flag |
| Cycle.PlayerCycle.DeactivateCurrent | gym_env/cycle.py:126-129 | raises AssertionError when the current seat is already out, and otherwise clears only its flag |
| Cycle.PlayerCycle.MarkFolder | gym_env/cycle.py:131-133 | raises TypeError while `folder` is None, and otherwise marks the current seat folded |
| Cycle.PlayerCycle.MarkRaiser | gym_env/cycle.py:135-137 | `last_raiser` becomes the step counter |
| Cycle.PlayerCycle.MarkChecker | gym_env/cycle.py:139-141 | checkers rise by one |
| Cycle.PlayerCycle.MarkOutOfCashButContributed | gym_env/cycle.py:143-146 | marks the current seat all in and then deactivates it, raising AssertionError when it was already out |
| Cycle.PlayerCycle.MarkBb | gym_env/cycle.py:148-151 | `last_raiser_step` = step + n and `max_steps_total` = step + n * `max_raises_per_player_round` + 2 |
| Cycle.PlayerCycle.RaisingAllowed | gym_env/cycle.py:153-155 | `step_counter <= last_raiser_step`; comparing with a None `last_raiser_step` raises TypeError |
| Cycle.PlayerCycle.UpdateAlive | gym_env/cycle.py:157-160 | alive becomes the or of move and all-in flags |
| Cycle.PlayerCycle.GetPotentialWinners | gym_env/cycle.py:162-167 | returns the potential winners of the current state |
| Cycle.AfterNextPlayer | gym_env/cycle.py:57-101 | `next_player`. `Cycle.NextPlayerTooFew`, `Cycle.NextPlayerStops`, `Cycle.NextPlayerNeedsBigBlindSetting`, `Cycle.NextPlayerSeat` and `Cycle.NextPlayerNeverReturns` characterise it |
| Cycle.AfterChecks | gym_env/cycle.py:85-101 | the checkers test, then the skip loop. `Cycle.NextPlayerStops` and `Cycle.NextPlayerSeat` state both outcomes |
| Cycle.AfterSkip | gym_env/cycle.py:89-101 | the skip loop, `update_alive` and the seat returned. `Cycle.SkipSeat` and `Cycle.SkipFoundState` state its result |
| Cycle.AfterNextDealer | gym_env/cycle.py:103-115 | `next_dealer`. `Seats.NextSeat` and `Seats.NextSeatFirst` give its seat, and `Cycle.PlayerCycle.NextDealer` is proved against it |
| Cycle.AfterSetIdx | gym_env/cycle.py:117-119 | `set_idx`; `Cycle.PlayerCycle.SetIdx` is proved against it |
| Cycle.AfterMarkRaiser | gym_env/cycle.py:135-137 | `mark_raiser`; `Cycle.PlayerCycle.MarkRaiser` is proved against it |
| Cycle.AfterMarkChecker | gym_env/cycle.py:139-141 | `mark_checker`; `Cycle.PlayerCycle.MarkChecker` is proved against it |
| Cycle.AfterMarkBb | gym_env/cycle.py:148-151 | `mark_bb`. `Cycle.BigBlindWindow` states the raising window and step limit it sets |
| Cycle.IsRaisingAllowed | gym_env/cycle.py:153-155 | `is_raising_allowed`. `Cycle.BigBlindWindow` and `Cycle.NewStreetResetMeaning` state when it allows a raise |
| Env.CardDeck | gym_env/env.py:547-551 | the deck of `_create_card_deck` has 52 cards |
| Env.CardDeckMeaning | gym_env/env.py:547-551 | the deck holds each well-formed card exactly once, the same cards as the C++ `Deck` |
| Env.Draw | gym_env/env.py:559-561 | a draw succeeds exactly when the deck is not empty and the supplied index is in range. The drawn card is the one at that index, and it and the rest make up the old deck |
| Env.DealSeat | gym_env/env.py:555-561 | one seat of the deal: its cards are cleared, a seat with chips gets two cards and any other seat none, no other seat changes, and the cards come out of the deck |
| Env.DealFrom | gym_env/env.py:555-562 | the deal loop from seat i on: earlier seats are unchanged, each later seat holds two cards or none by its stack, and the cards dealt plus the deck left are the old deck |
| Env.Distribute | gym_env/env.py:553-562 | `_distribute_cards`: each seat with chips holds two cards and every other seat none. The hole cards plus the deck are the old deck, and nothing else changes |
| Env.DealToTable | gym_env/env.py:564-568 | `_distribute_cards_to_table(k)` appends k cards to the table cards. The table cards plus the deck are the same multiset as before, and nothing else changes |
| Env.Record | gym_env/env.py:242-280 | the bookkeeping of a decision moves no chips and keeps the table well formed |
| Env.MarkOutOfCash | gym_env/env.py:293-294 | only the cycle changes, and the raiser record is kept |
| Env.Contribute | gym_env/env.py:284-302 | the chip moves keep the table well formed, on the same stage |
| Env.Fold | gym_env/env.py:234-240 | FOLD changes only the cycle |
| Env.ProcessDecision | gym_env/env.py:229-315 | a decision keeps the table well formed, on the same stage |
| Env.ProcessDecisionConserves | gym_env/env.py:229-315 | a decision does not change stacks plus the seats' side-pot stakes |
| Env.DecisionPays | gym_env/env.py:242-302 | a decision other than FOLD moves its contribution from the current seat's stack into its pot |
| Env.Contribution | gym_env/env.py:242-282 | what each decision costs the seat. `Env.DecisionPays` shows the decision moves exactly that from the stack to the seat's pot |
| Env.Total | gym_env/env.py:302 | the chips of a hand: the stacks plus the side-pot stakes. `Env.ProcessDecisionConserves`, `Env.NextPlayerConserves` and `Env.StepConserves` show it is kept |
| Env.AllInMark | gym_env/env.py:293-294 | the all-in check changes only the cycle |
| Env.Paid | gym_env/env.py:284-291 | the chip moves before the all-in check keep the table well formed |
| Env.ContributeStages | gym_env/env.py:284-302 | a contribution is the pay-in, then the all-in mark when a positive contribution empties the stack, then `min_call` and `player_max_win` |
| Env.ContributeMoves | gym_env/env.py:284-302 | c leaves the stack for the seat's pot, the street pot and the side-pot stake, and `last_player_pot` is the seat's new pot. `min_call` becomes max(min_call, c), and the chips of the hand are kept |
| Env.MovedKeepsTotals | gym_env/env.py:288-302 | moving c this way keeps the chips of the hand and the gap between the seats' pots and the street pot |
| Env.ContributeFields | gym_env/env.py:284-302 | the fields a contribution moves, one by one |
| Env.PaidFields | gym_env/env.py:284-291 | what the pay-in moves, with `min_call` and the stakes not yet touched |
| Env.ContributeRaiser | gym_env/env.py:284-286 | a contribution above `min_call` makes the seat the last raiser at the cycle's current step; any other keeps both raiser records |
| Env.ContributeAllIn | gym_env/env.py:293-294 | a positive contribution that empties the stack marks the current seat all in, so it can no longer move |
| Env.FoldMovesNoChips | gym_env/env.py:231-240 | FOLD passes only when it is in `action_space` with a current player, and when that seat can still move. It moves no chips and deactivates the seat, which is then marked folded and no longer a potential winner |
| Env.AllInMarked | gym_env/env.py:288-294 | a decision that empties the stack with a positive contribution leaves the seat all in and unable to move |
| Env.CallAndBlindAmounts | gym_env/env.py:242-278 | CALL matches the last pot or empties the stack, ALL_IN empties it, and a blind takes the blind or the whole stack. None of these drives a non-negative stack below zero |
| Env.RaisesMembers | gym_env/env.py:523-537 | a raise is offered exactly when the stack covers its amount and the amount covers `min_call`; ALL_IN is offered when the stack is positive |
| Env.LegalMovesMeaning | gym_env/env.py:514-539 | CHECK is legal exactly when the street pot is 0, and CALL and FOLD exactly when it is not; blinds are never legal. Raises and ALL_IN are legal exactly when raising is allowed and the stack covers them |
| Env.LegalMoves | gym_env/env.py:514-537 | `_get_legal_moves`. `Env.LegalMovesMeaning` characterises it move by move, and `Env.LegalMovesAffordable` states what the moves cost |
| Env.RaiseAmount | gym_env/env.py:524-534 | the amount each raise is offered for. `Env.Raise3BBOverdraws` shows the 3BB offer differs from what it pays |
| Env.Offered | gym_env/env.py:524-534 | the test for offering a raise. `Env.RaisesMembers` and `Env.LegalMovesMeaning` use it |
| Env.Raises | gym_env/env.py:523-537 | the raises and ALL_IN in the order appended. `Env.RaisesMembers` states exactly which are there |
| Env.LegalMovesAffordable | gym_env/env.py:514-537 | a legal move, RAISE_3BB with an empty community pot aside, never leaves the stack negative |
| Env.Raise3BBOverdraws | gym_env/env.py:253-254 | the offer (line 524) checks 3 * big_blind, but RAISE_3BB pays (community_pot + big_blind) * 3. With stack 6, big blind 2 and community pot 10 it is offered and leaves the stack at -30 |
| Env.CloseRound | gym_env/env.py:541-545 | `_close_round` keeps the table well formed |
| Env.CleanUpPots | gym_env/env.py:450-453 | `_clean_up_pots` keeps the table well formed |
| Env.EndRound | gym_env/env.py:428-448 | the street ends one stage closer to the end of the hand, and a stage past RIVER stays as it is |
| Env.NextStageShortens | gym_env/env.py:431-444 | each street's successor is one step shorter until SHOWDOWN or END_HIDDEN |
| Env.EndRoundMeaning | gym_env/env.py:428-453 | the next stage with 3, 1, 1 or 0 cards appended. The seats' pots and the street pot go into the community pot and are emptied; stacks, stakes and cycle are kept |
| Env.NextStage | gym_env/env.py:431-444 | the stage after each street. `Env.NextStageShortens` and `Env.EndRoundMeaning` state it |
| Env.CardsFor | gym_env/env.py:431-441 | 3, 1 and 1 table cards after PREFLOP, FLOP and TURN. `Env.EndRoundMeaning` states the cards appended |
| Env.Measure | gym_env/env.py:428-444 | the streets left before the hand ends, which bounds the recursion of `_end_round` and `_initiate_round`. `Env.NextStageShortens` shows each street shortens it |
| Env.EndRoundCountsStreetTwice | gym_env/env.py:428-453 | when the seats' pots equal the street pot, `_end_round` adds the street to the community pot twice |
| Env.InitiateRound | gym_env/env.py:384-416 | `_initiate_round` never moves to an earlier stage and keeps the seat count and `done`. At SHOWDOWN it only resets and stays there; with no stage, or at END_HIDDEN, it raises RuntimeError |
| Env.Preflop | gym_env/env.py:395-405 | the preflop round keeps the table well formed and moves forward |
| Env.RoundReset | gym_env/env.py:386-393 | the resets keep the table well formed |
| Env.StepLimit | gym_env/env.py:399 | setting `max_steps_total` keeps the table well formed |
| Env.Blinds | gym_env/env.py:401-405 | the blinds keep the table well formed and move forward |
| Env.Blind | gym_env/env.py:401-404 | one blind keeps the table well formed and moves forward |
| Env.NextPlayer | gym_env/env.py:495-512 | `_next_player` keeps the table well formed and never moves to an earlier stage |
| Env.CycleStepWellFormed | gym_env/env.py:675-711 | the cycle's step keeps one entry per seat and names a seat in range |
| Env.NextPlayerConserves | gym_env/env.py:495-512 | `_next_player`, with every round it starts, keeps the chips of the hand and the street pot equal to the seats' pots |
| Env.InitiateRoundConserves | gym_env/env.py:384-416 | `_initiate_round` keeps the chips of the hand and the street pot equal to the seats' pots |
| Env.PreflopConserves | gym_env/env.py:395-405 | the preflop round keeps the chips of the hand and the pot agreement |
| Env.StreetConserves | gym_env/env.py:407-410 | a flop, turn or river round keeps the chips of the hand and the pot agreement |
| Env.BlindsConserve | gym_env/env.py:401-405 | the blinds keep the chips of the hand and the pot agreement |
| Env.BlindConserves | gym_env/env.py:401-404 | one blind keeps the chips of the hand and the pot agreement |
| Env.ProcessDecisionKeepsPots | gym_env/env.py:229-315 | a decision keeps the chips of the hand and the street pot equal to the seats' pots |
| Env.IndicesFrom | gym_env/env.py:464 | the flagged seats from i on, once each, in seat order |
| Env.Indices | gym_env/env.py:464 | `potential_winner_idx` lists exactly the flagged seats, in order, as many as there are flags set |
| Env.HandsOf | gym_env/env.py:471-473 | the hole cards of the given seats, in their order |
| Env.CombinedCards | gym_env/env.py:471-474 | hole and table cards are valid cards, and so is each combined hand |
| Env.Winner | gym_env/env.py:460-477 | the winner is a potential winner |
| Env.Showdown | gym_env/env.py:471-475 | the showdown winner is one of the given seats |
| Env.ShowdownMeaning | gym_env/env.py:471-475 | the showdown winner is a seat whose combined hand ranks best |
| Env.WinnerMeaning | gym_env/env.py:460-477 | the winner has not folded. A sole potential winner wins; otherwise the stage must be SHOWDOWN and the winner's combined hand ranks best |
| Env.Capped | gym_env/env.py:482 | `np.minimum` keeps one entry per seat |
| Env.Excess | gym_env/env.py:483 | `np.maximum` keeps one entry per seat |
| Env.Award | gym_env/env.py:479-490 | `_award_winner` keeps the table well formed |
| Env.CappedPlusExcess | gym_env/env.py:481-490 | the winnings plus what comes back equal everything staked, and nothing comes back negative |
| Env.AwardMeaning | gym_env/env.py:479-490 | the winner gains the capped stakes and every other seat gets back what it staked beyond the winner's stake. The stacks then hold all chips of the hand |
| Env.ExcessZero | gym_env/env.py:487-490 | when nothing comes back, no seat staked more than the winner |
| Env.EndHand | gym_env/env.py:455-458 | `_end_hand` keeps the table well formed |
| Env.ScanStacks | gym_env/env.py:361-366 | the scan keeps the table well formed and the seat count |
| Env.CheckGameOver | gym_env/env.py:356-372 | `_check_game_over` keeps the table well formed |
| Env.ScanStacksMeaning | gym_env/env.py:361-366 | from a freshly reset cycle the scan never fails its assertion. It deactivates and records exactly the broke seats, and counts those with chips |
| Env.ScanKeepStep | gym_env/env.py:362-363 | a seat with chips stays able to move and is counted |
| Env.ScanDropStep | gym_env/env.py:364-366 | a broke seat is deactivated and recorded in `player_status` |
| Env.CheckGameOverMeaning | gym_env/env.py:356-377 | `_check_game_over` never fails. The game is over exactly when fewer than two seats have chips, and only the seats with chips can move |
| Env.NextDealer | gym_env/env.py:492-493 | only the cycle and `dealer_pos` change |
| Env.FreshHand | gym_env/env.py:328-344 | the fresh hand keeps the table well formed |
| Env.StartNewHand | gym_env/env.py:317-349 | `_start_new_hand` keeps the table well formed |
| Env.DealHand | gym_env/env.py:328-349 | the deal keeps the table well formed |
| Env.StartNewHandConserves | gym_env/env.py:317-349 | the game ends exactly when fewer than two seats have chips, and then the stacks are kept. Otherwise the new hand holds the old stacks' chips with the pots in agreement |
| Env.WithLegalMoves | gym_env/env.py:514-539 | only `action_space` changes |
| Env.GetEnvironment | gym_env/env.py:183-227 | `_get_environment` keeps the table well formed; `Env.GetEnvironmentMeaning` states what it computes |
| Env.GetEnvironmentMeaning | gym_env/env.py:183-227 | with no stage, or with neither a current player nor a winner, `_get_environment` raises. Once the legal moves are computed (or the game is done), the first is AttributeError and the second TypeError (gym_env/env.py:204). On success the current player is set (the winner's seat when nobody is to act), `action_space` is the legal moves of the table it leaves, and no other attribute changes |
| Env.LegalMovesIgnoresActions | gym_env/env.py:514-537 | the legal moves do not depend on the old `action_space` |
| Env.GetEnvironmentKeepsChips | gym_env/env.py:183-227 | `_get_environment` moves no chip and leaves a current player with its legal moves |
| Env.Step | gym_env/env.py:150-181 | `step` keeps the table well formed; `Env.StepConserves` states what happens to the chips |
| Env.StepConserves | gym_env/env.py:150-181 | a `step` that goes on keeps the chips of the hand and the pot agreement, also across the award and the next hand's blinds. A `step` that ends the game leaves all chips of the hand in the stacks, with fewer than two seats holding chips |
| Env.SettleConserves | gym_env/env.py:170-175 | what follows the next player keeps the same facts |
| Env.HandOverConserves | gym_env/env.py:170-175 | at END_HIDDEN or SHOWDOWN, ending the hand and dealing the next keeps the same facts |
| Env.AliveKeepsChips | gym_env/env.py:174-175 | `update_alive` and `_get_environment` move no chip |
| Env.NewHandConserves | gym_env/env.py:171-172 | `_end_hand` then `_start_new_hand` keep the chips of the hand: the next hand holds them, or the game ends with them in the stacks |
| Env.EndHandPays | gym_env/env.py:455-458 | `_end_hand` pays all chips of the hand into the stacks and keeps the seat count and `done` |
| Env.SettleAfterHand | gym_env/env.py:170-175 | after a hand is over, `step` ends the hand, deals the next, updates the alive flags and reads the environment, in that order |
| Env.Play | gym_env/env.py:166-168 | decision and next player keep the table well formed |
| Env.Settle | gym_env/env.py:170-175 | what follows the next player keeps the table well formed |
| Env.NewHand | gym_env/env.py:171-172 | `_end_hand` then `_start_new_hand` keep the table well formed |
| Env.Reset | gym_env/env.py:129-148 | `reset` keeps the table well formed; `Env.ResetMeaning` states the table it leaves |
| Env.Restarted | gym_env/env.py:134-140 | the head of `reset`: `done` cleared, every stack at `initial_stacks`, dealer 0 and a new cycle with dealer -1 and n steps after a raiser |
| Env.ResetMeaning | gym_env/env.py:129-148 | after `reset` every seat starts from the initial stack. The game is over at once exactly when fewer than two seats have chips. Otherwise the first hand holds the n initial stacks (n times the stack, by `Common.SumRealRepeat`), the street pot matches the seats' pots, and the current player's `action_space` is its legal moves |
| Env.FirstHand | gym_env/env.py:134-141 | the first hand `_start_new_hand` deals after the restart: the same facts, before the environment is read |
| Env.WithChipsRepeat | gym_env/env.py:361-366 | n equal stacks have n seats with chips when the stack is positive, and none otherwise |
| Env.NewTable | gym_env/env.py:87-426 | the table after construction and n `add_player` calls is well formed |
| EnvTable.HoldemTable.constructor | gym_env/env.py:87-426 | the object's state is `Env.NewTable`, and its invariant holds |
| EnvTable.HoldemTable.CreateCardDeck | gym_env/env.py:547-551 | the deck becomes `Env.CardDeck` |
| EnvTable.HoldemTable.DistributeCardsToTable | gym_env/env.py:564-568 | the state `Env.DealToTable` leaves, or its exception |
| EnvTable.HoldemTable.DistributeCards | gym_env/env.py:553-562 | the state `Env.Distribute` leaves, or its exception |
| EnvTable.HoldemTable.LayTable | gym_env/env.py:567 | only table cards and deck change |
| EnvTable.HoldemTable.LayHands | gym_env/env.py:561 | only the hole cards and the deck change |
| EnvTable.HoldemTable.SetDraws | gym_env/env.py:560 | only the draws left change |
| EnvTable.HoldemTable.RecordDecision | gym_env/env.py:242-280 | the bookkeeping `Env.Record` states |
| EnvTable.HoldemTable.RecordCaller | gym_env/env.py:245-246 | the seat joins the callers and is the last caller |
| EnvTable.HoldemTable.RecordChecker | gym_env/env.py:251 | `mark_checker` on the cycle |
| EnvTable.HoldemTable.RecordBlind | gym_env/env.py:275 | the seat is the last raiser |
| EnvTable.HoldemTable.RecordBigBlind | gym_env/env.py:280 | `mark_bb` on the cycle |
| EnvTable.HoldemTable.RecordRaiser | gym_env/env.py:255 | the seat joins the raisers |
| EnvTable.HoldemTable.Contribute | gym_env/env.py:284-302 | the state `Env.Contribute` leaves, or its exception |
| EnvTable.HoldemTable.AllInCheck | gym_env/env.py:293-294 | the state `Env.AllInMark` leaves, or its exception |
| EnvTable.HoldemTable.PayIn | gym_env/env.py:284-291 | the state `Env.Paid` leaves |
| EnvTable.HoldemTable.MarkRaiser | gym_env/env.py:284-286 | `mark_raiser` and the seat as last raiser |
| EnvTable.HoldemTable.Stake | gym_env/env.py:288-289 | c moves from the stack to the seat's pot |
| EnvTable.HoldemTable.RoundPot | gym_env/env.py:290-291 | the street pot grows by c and the last pot is the seat's |
| EnvTable.HoldemTable.MarkAllIn | gym_env/env.py:294 | the state `Env.MarkOutOfCash` leaves, or its exception |
| EnvTable.HoldemTable.Ledger | gym_env/env.py:296-302 | `min_call` rises to c and the seat's stake grows by c |
| EnvTable.HoldemTable.ProcessDecision | gym_env/env.py:229-315 | the state `Env.ProcessDecision` leaves, or its exception |
| EnvTable.HoldemTable.Fold | gym_env/env.py:234-240 | the state `Env.Fold` leaves, or its exception |
| EnvTable.HoldemTable.Decide | gym_env/env.py:242-302 | the bookkeeping, then the contribution's chip moves, or their exception |
| EnvTable.HoldemTable.CloseRound | gym_env/env.py:541-545 | the state `Env.CloseRound` leaves |
| EnvTable.HoldemTable.CleanUpPots | gym_env/env.py:450-453 | the state `Env.CleanUpPots` leaves |
| EnvTable.HoldemTable.CollectRoundPot | gym_env/env.py:451-452 | the street pot moves into the community pot |
| EnvTable.HoldemTable.EmptySeatPots | gym_env/env.py:453 | every seat's pot becomes 0 |
| EnvTable.HoldemTable.SetStage | gym_env/env.py:432 | only the stage changes |
| EnvTable.HoldemTable.CloseStreet | gym_env/env.py:430-444 | the street closes and the stage moves on |
| EnvTable.HoldemTable.EndRound | gym_env/env.py:428-448 | the state `Env.EndRound` leaves, or its exception |
| EnvTable.HoldemTable.RoundReset | gym_env/env.py:386-393 | the state `Env.RoundReset` leaves |
| EnvTable.HoldemTable.ClearLast | gym_env/env.py:386-387 | last caller and last raiser become None |
| EnvTable.HoldemTable.ClearMinCall | gym_env/env.py:390-393 | `min_call` is 0 and the cycle is reset for the street |
| EnvTable.HoldemTable.StepLimit | gym_env/env.py:399-408 | only the cycle's `max_steps_total` changes |
| EnvTable.HoldemTable.AdvancePlayer | gym_env/env.py:497 | the cycle and current player `next_player` leaves, or its exception |
| EnvTable.HoldemTable.NextPlayer | gym_env/env.py:495-512 | the state `Env.NextPlayer` leaves, or its exception |
| EnvTable.HoldemTable.InitiateRound | gym_env/env.py:384-416 | the state `Env.InitiateRound` leaves, or its exception |
| EnvTable.HoldemTable.Preflop | gym_env/env.py:395-405 | the state `Env.Preflop` leaves, or its exception |
| EnvTable.HoldemTable.Blinds | gym_env/env.py:401-405 | the state `Env.Blinds` leaves, or its exception |
| EnvTable.HoldemTable.Blind | gym_env/env.py:401-404 | the state `Env.Blind` leaves, or its exception |
| EnvTable.HoldemTable.GetLegalMoves | gym_env/env.py:514-539 | `action_space` becomes `Env.LegalMoves`, or the call raises |
| EnvTable.HoldemTable.LegalMoves | gym_env/env.py:516-537 | the appends give `Env.LegalMoves` of the state |
| EnvTable.HoldemTable.GetWinner | gym_env/env.py:460-477 | the seat `Env.Winner` names, or its exception |
| EnvTable.HoldemTable.AwardWinner | gym_env/env.py:479-490 | the state `Env.Award` leaves |
| EnvTable.HoldemTable.PayWinner | gym_env/env.py:485-486 | the winner's stack grows by the winnings |
| EnvTable.HoldemTable.ReturnSidePots | gym_env/env.py:489-490 | each stack grows by what comes back to it |
| EnvTable.HoldemTable.EndHand | gym_env/env.py:455-458 | the state `Env.EndHand` leaves, or its exception |
| EnvTable.HoldemTable.CheckGameOver | gym_env/env.py:356-372 | the state and verdict `Env.CheckGameOver` gives, or its exception |
| EnvTable.HoldemTable.ScanStacks | gym_env/env.py:361-368 | the state and count `Env.ScanStacks` gives, or its exception |
| EnvTable.HoldemTable.ScanSeat | gym_env/env.py:362-366 | one seat of the scan, as `Env.ScanStacks` counts it |
| EnvTable.HoldemTable.NextDealer | gym_env/env.py:492-493 | the state `Env.NextDealer` leaves, or its exception |
| EnvTable.HoldemTable.FreshHand | gym_env/env.py:328-344 | the state `Env.FreshHand` leaves |
| EnvTable.HoldemTable.ClearTable | gym_env/env.py:328-344 | no table cards, a fresh deck, preflop and no hole cards |
| EnvTable.HoldemTable.ClearHands | gym_env/env.py:343-344 | every seat's cards become empty |
| EnvTable.HoldemTable.ClearPots | gym_env/env.py:336-340 | all pots and stakes become 0 |
| EnvTable.HoldemTable.EmptyPots | gym_env/env.py:336-337 | community and street pot become 0 |
| EnvTable.HoldemTable.ClearStakes | gym_env/env.py:339-340 | stakes and last pot become 0 |
| EnvTable.HoldemTable.StartNewHand | gym_env/env.py:317-349 | the state `Env.StartNewHand` leaves, or its exception |
| EnvTable.HoldemTable.DealHand | gym_env/env.py:328-349 | the state `Env.DealHand` leaves, or its exception |
| EnvTable.HoldemTable.GetEnvironment | gym_env/env.py:183-227 | the state `Env.GetEnvironment` leaves, or its exception |
| EnvTable.HoldemTable.Step | gym_env/env.py:150-181 | the state `Env.Step` leaves, or its exception |
| EnvTable.HoldemTable.Play | gym_env/env.py:166-168 | the state `Env.Play` leaves, or its exception |
| EnvTable.HoldemTable.Settle | gym_env/env.py:170-175 | the state `Env.Settle` leaves, or its exception |
| EnvTable.HoldemTable.Observe | gym_env/env.py:174-175 | `update_alive`, then the state `Env.GetEnvironment` leaves |
| EnvTable.HoldemTable.NewHand | gym_env/env.py:171-172 | the state `Env.NewHand` leaves, or its exception |
| EnvTable.HoldemTable.Reset | gym_env/env.py:129-148 | the state `Env.Reset` leaves on a new cycle, or its exception |
| EnvTable.HoldemTable.Restart | gym_env/env.py:134-140 | the state becomes `Env.Restarted` of the old state: full stacks, dealer 0 and a new cycle with dealer -1 and n steps after a raiser |
| EnvTable.HoldemTable.Refill | gym_env/env.py:134-137 | `done` is False and every stack is the initial stack |
| EnvTable.HoldemTable.NewCycle | gym_env/env.py:139-140 | dealer 0 and a new cycle |
| EnvTable.Raises | gym_env/env.py:523-537 | the raises appended are `Env.Raises` |
| EnvTable.Showdown | gym_env/env.py:471-475 | the seat `Env.Showdown` names, or its exception |
| EnvTable.DealHoleCards | gym_env/env.py:555-562 | the loop gives `Env.DealFrom` from seat 0 |
| EnvTable.DealSeatCards | gym_env/env.py:556-561 | one seat gives `Env.DealSeat` |
| EnvTable.NewDeck | gym_env/env.py:550-551 | the comprehension gives `Env.CardDeck` |
| EnvTable.DeckGrows | gym_env/env.py:551 | round (x, y) appends card 4x + y |
| EnvTable.PopCard | gym_env/env.py:560-561 | the pop gives `Env.Draw` |
| EnvTable.DealCommunity | gym_env/env.py:565-567 | the loop succeeds exactly when `Env.DealToTable` does, with the same cards, deck and draws or the same exception |
| InitEnv.TestInitEnv | tests/test_gym_env.py:17-35 | for any draws in range, `reset()` on the default six-seat table with 100 chips a seat gives seat 0 two cards and seat 3 the turn; CALL, FOLD, FOLD, FOLD, CALL, CALL then all succeed and leave stacks 100, 98, 98, 98, 100, 100 (seats 0 to 5) at the flop, with 12 chips in the community pot and three table cards |
| InitEnv.Opening | tests/test_gym_env.py:7-13 | `HoldemTable(6)` with its defaults (blinds 1 and 2) and six players of 100 is a well-formed table |
| InitEnv.ResetOpens | gym_env/env.py:129-148 | `reset()` succeeds: stacks 100, 99, 98, 100, 100, 100, the blinds in the seats' pots, 3 in the street pot, two cards a seat, 40 cards left, and seat 3 to act with CALL and FOLD offered |
| InitEnv.FirstCheck | gym_env/env.py:356-372 | the game-over check of the first hand finds every seat with chips: the game goes on and every seat can move |
| InitEnv.FirstDeal | gym_env/env.py:553-562 | the dealer moves to seat 0 and the deal gives every seat two cards, using twelve draws and leaving 40 cards |
| InitEnv.HandDealt | gym_env/env.py:328-349 | `_start_new_hand` after the opening CHECK deals and posts the blinds, and seat 3 is to act |
| InitEnv.PreflopPosted | gym_env/env.py:384-405 | the preflop `_initiate_round` posts both blinds and leaves seat 3 to act |
| InitEnv.PreflopStarts | gym_env/env.py:385-398 | the street's resets and its limit of 2 * 6 + 2 = 14 steps, nothing paid yet |
| InitEnv.BlindsPosted | gym_env/env.py:399-405 | next player, small blind, next player, big blind, next player: stacks 100, 99, 98, 100, 100, 100 and seat 3 to act |
| InitEnv.SmallBlindPosts | gym_env/env.py:401-402 | seat 1 posts 1, which raises above `min_call` 0 |
| InitEnv.SmallBlindSeat | gym_env/env.py:495-498 | the first `_next_player` of the hand names seat 1 |
| InitEnv.SmallBlindPays | gym_env/env.py:273-302 | the small blind moves 1 from seat 1's stack to its pot and marks it the raiser |
| InitEnv.BigBlindPosts | gym_env/env.py:403-404 | seat 2 posts 2, again a raise, after `mark_bb` |
| InitEnv.BigBlindSeat | gym_env/env.py:495-498 | the next `_next_player` names seat 2 |
| InitEnv.BigBlindPays | gym_env/env.py:277-302 | the big blind moves 2 from seat 2's stack, and `mark_bb` sets the raising window to step 8 and the limit to step 14 |
| InitEnv.BigBlindMarks | gym_env/env.py:277-280 | `mark_bb` is recorded before any chip moves, and the blind costs 2 |
| InitEnv.BigBlindContributes | gym_env/env.py:284-302 | paying 2 above `min_call` 1 marks seat 2 the raiser and raises the street pot to 3 |
| InitEnv.UtgFirst | gym_env/env.py:405 | the last `_next_player` of the preflop round names seat 3 |
| InitEnv.OffersCallAndFold | gym_env/env.py:183-227 | with chips in the street pot, `_get_environment` offers the current seat CALL and FOLD and changes nothing else |
| InitEnv.StepIs | gym_env/env.py:166-175 | `step` on a stage that is set is the decision, `_next_player` and what follows it |
| InitEnv.CallDecides | gym_env/env.py:242-302 | CALL at the big blind's level pays the seat's difference to 2 into its pot and the street pot, without a raise |
| InitEnv.FoldDecides | gym_env/env.py:231-240 | FOLD deactivates the seat and marks it folded, moving no chip |
| InitEnv.StreetPlays | gym_env/env.py:495-498 | before step 9 `_next_player` names the next seat, and the rest of `step` offers it CALL and FOLD |
| InitEnv.CallStep | gym_env/env.py:150-181 | a whole `step(CALL)` before step 8: the seat pays up to 2 and the next seat is to act |
| InitEnv.FoldStep | gym_env/env.py:150-181 | a whole `step(FOLD)` before step 8: the seat is out and the next seat is to act |
| InitEnv.LastCall | gym_env/env.py:150-181 | a `step(CALL)` after which the cycle returns False ends the street: the flop, the pots in the community pot, and seat 1 to act |
| InitEnv.StreetSettles | gym_env/env.py:166-175 | after that decision, `_next_player` and the rest of `step` leave the flop |
| InitEnv.StreetCloses | gym_env/env.py:495-505 | `_next_player` at step 9 ends the preflop street and opens the flop with seat 1 to act |
| InitEnv.StreetEnds | gym_env/env.py:495-505 | with three seats alive, a False from the cycle means `_end_round` then `_initiate_round` |
| InitEnv.NextPlayerEnds | gym_env/env.py:495-505 | whenever the cycle returns False with two seats or more alive, `_next_player` is `_end_round` then `_initiate_round` |
| InitEnv.FlopReached | gym_env/env.py:428-453 | the end of the preflop street and the start of the flop, with the pots in the community pot |
| InitEnv.NextIsFlop | gym_env/env.py:502-505 | so the flop is what `_next_player` leaves |
| InitEnv.RoundEnds | gym_env/env.py:428-453 | `_end_round` moves the seats' pots and the street pot to the community pot and deals three cards |
| InitEnv.FlopOpens | gym_env/env.py:407-410 | the flop's `_initiate_round` sets a limit of 12 steps and names seat 1 |
| InitEnv.FlopFirst | gym_env/env.py:407-410 | its `_next_player` names seat 1 |
| InitEnv.FlopCycle | gym_env/env.py:675-711 | after `new_round_reset` from the dealer, the cycle's first step names seat 1 |
| InitEnv.FlopSettles | gym_env/env.py:170-175 | on the flop, the rest of `step` starts no hand and keeps the stacks, the pots and the seat to act |
| InitEnv.CycleStops | gym_env/env.py:675-711 | at step 9 of the preflop street, past the raising window 6 + 2, the cycle returns False |
| InitEnv.CycleDone | gym_env/env.py:675-711 | on any such cycle, the step past the window returns False |
| InitEnv.StreetNext | gym_env/env.py:675-711 | before step 8, the cycle's step names the next seat when it can move |
| InitEnv.CycleNext | gym_env/env.py:675-711 | the same on any cycle that allows raises to step 8 |
| InitEnv.DealFromOk | gym_env/env.py:555-562 | with chips at every seat and draws in range, the deal loop succeeds and uses two draws a seat |
| InitEnv.DealSeatOk | gym_env/env.py:556-561 | a seat with chips draws its two cards |
| InitEnv.DealToTableOk | gym_env/env.py:564-568 | draws in range let `_distribute_cards_to_table(k)` deal its k cards |
| InitEnv.UtgCalls | tests/test_gym_env.py:23 | step 1: seat 3 calls 2; stacks 100, 99, 98, 98, 100, 100 and seat 4 to act |
| InitEnv.FirstFold | tests/test_gym_env.py:24 | step 2: seat 4 folds, seat 5 to act |
| InitEnv.SecondFold | tests/test_gym_env.py:25 | step 3: seat 5 folds, seat 0 to act |
| InitEnv.ThirdFold | tests/test_gym_env.py:26 | step 4: seat 0 folds, seat 1 to act, the cycle in its second round |
| InitEnv.SmallBlindCalls | tests/test_gym_env.py:27 | step 5: seat 1 calls 1 more; stacks 100, 98, 98, 98, 100, 100 and seat 2 to act |
| InitEnv.BigBlindCalls | tests/test_gym_env.py:28 | step 6: seat 2 calls nothing more; the street ends with 12 chips in the community pot and the flop on the table |
| InitEnv.FromUtg1 | tests/test_gym_env.py:24-35 | the last five steps, from seat 4's turn, reach the same flop |
| InitEnv.FromUtg2 | tests/test_gym_env.py:25-35 | the last four, from seat 5's turn |
| InitEnv.FromDealer | tests/test_gym_env.py:26-35 | the last three, from seat 0's turn |
| InitEnv.FromSmallBlind | tests/test_gym_env.py:27-35 | the last two, from seat 1's turn |
| InitEnv.FromBigBlind | tests/test_gym_env.py:28-35 | the last one, from seat 2's turn |
| InitEnv.FromUtg | tests/test_gym_env.py:23-35 | the six steps from seat 3's turn reach the flop with stacks 100, 98, 98, 98, 100, 100 |
| InitEnv.UtgOwes | tests/test_gym_env.py:23 | seat 3 owes 2 and seat 4 is next |
| InitEnv.SmallBlindOwes | tests/test_gym_env.py:27 | seat 1 owes 1 and seat 2 is next |
| InitEnv.BigBlindOwes | tests/test_gym_env.py:28 | seat 2 owes nothing; the seats' pots and the street pot hold 6 each |
| InitEnv.Utg1Leaves | tests/test_gym_env.py:24 | seat 4's FOLD leaves five seats in, seat 5 next |
| InitEnv.Utg2Leaves | tests/test_gym_env.py:25 | seat 5's FOLD leaves four seats in, seat 0 next |
| InitEnv.DealerLeaves | tests/test_gym_env.py:26 | seat 0's FOLD leaves three seats in, seat 1 next, and step 7 starts the second round |

## Left out

- **Autoplay.** The autoplay of `reset` and `step` (gym_env/env.py:144-147, 160-165, 177-179) calls agent objects. `step` here takes its action as an argument; the call without one, and the agents themselves, are not modelled.
- **The observation.** `_get_environment` (gym_env/env.py:188-227) builds an observation, a reward and an info value from numpy arrays. It also computes a floating-point equity with tools.montecarlo_python, which is not part of this model. Its legal moves, and its errors when no stage or no winner is set, are modelled.
- **Observation bookkeeping.** Left out because it only feeds the observation:
  - the `stage_data` recording in `_process_decision` (gym_env/env.py:304-311);
  - the players' `actions`, `last_action_in_stage` and `temp_stack` (gym_env/env.py:298-300, 391-392);
  - `played_in_round`, `second_round` of the table, `community_data` and `player_data`.
- **I/O.** Logging, `_save_funds_history`, the plotting in `_game_over` and `render` are left out.
- **Players.** `PlayerShell` objects are left out. A player is its seat, and the players' `stack` and `cards` are per-seat lists of the table.
- **`__init__` placeholders.** Some attributes `__init__` sets to None are filled in by the first hand: `table_cards`, `deck`, `last_player_pot`, `player_max_win`, `min_call` and `player_cycle` (set only by `reset`, gym_env/env.py:140). In `Env.NewTable` they hold neutral values, and `player_cycle` holds `EnvCycle.Initial` of the seats. So an operation called before the first `reset` does not raise the exception Python would raise on them. On `deck`, `last_player_pot`, `player_max_win` and `min_call` that exception is a TypeError: `len(self.deck)` (gym_env/env.py:560, 566), the subtraction at gym_env/env.py:243, the subscript at gym_env/env.py:302 and the comparison at gym_env/env.py:284. On `table_cards` and `player_cycle` it is an AttributeError: `self.table_cards.append` (gym_env/env.py:567) and `self.player_cycle.next_player` (gym_env/env.py:497). (`stage`, `current_player` and `winner_ix` do stay None, with their errors modelled.)
- **Malformed card strings.** Both rankers are modelled on well-formed card strings only (`requires AllCards(hand)` in `HandEvaluator`). Python's `str.find` would give -1 for a character that is not a rank or a suit and score such a string anyway. Every hand the table scores is dealt from `_create_card_deck` (gym_env/env.py:547-551), so its cards are well formed.
- **The state after an exception.** When an operation raises, the class methods of `EnvTable` and of the two cycles promise the exception but not the partly updated state the source leaves behind.
- **The random deal.** The `draws` sequence stands in for `np.random.randint`. The distribution of the deal is not modelled, and `Err(BadDraw)` exists only in the model.
- **The C++ Monte-Carlo loop.** `montecarlo()` and `Deck::distribute_cards` (tools/montecarlo_cpp/Montecarlo.cpp:240-325) shuffle with `std::random_device` and return a floating-point equity. `print_set` and the pybind module are not modelled either.
- **The rest of `test_init_env`.** The six steps after its assertions (tests/test_gym_env.py:37-42) assert nothing but that no exception is raised. They are not replayed: `InitEnv.TestInitEnv` stops at the flop, where the test's assertions stop.
- **Eight-card hands.** The two rankers are proved to agree only on hands of at most seven distinct cards, the most the game deals. On eight cards their three-pairs tests differ (`RankerAgreement.ThreePairsTestsDifferOnEight`).
- **Repeated cards.** The C++ tests' inputs are sets, so repeated cards collapse there. The Python ranker is compared with them only on lists without repeats.
- **The string branch of `_next_player`.** The branch for the strings 'max_steps_total' and 'max_steps_after_raiser' (gym_env/env.py:508-512) is dead. The cycle of gym_env/env.py returns only False or a player, never one of those strings, so the branch is not modelled.
- **Settings of other types.** The cycles' optional settings are optional integers. An argument of another Python type, such as a float, is outside the model.

## Findings

| source | as written | input that shows it | evidently intended | confidence | as-written member | corrected member |
|---|---|---|---|---|---|---|
| gym_env/env.py:686 | the `PlayerCycle` of env.py stops as soon as `counter >= max_steps_total` | tests/test_gym_env.py:76-88 (`test_cycle_max_rounds`, which imports this class): four seats, start at seat 2, `max_steps_total` 5; the step-2 call at line 84 brings the counter from 3 to 5 and returns False, where line 85 expects 'utg' | the strict `counter > max_steps_total` of gym_env/cycle.py:68, under which the same call returns seat 3 ('utg') and the next one returns False with the counter at 6, as the test asserts | high, not executed | EnvCycle.MaxRoundsLastCalls | Cycle.MaxRoundsLastCalls |

The table's `HoldemTable` drives the env.py class, so the `Env` model keeps that class's
`>=` as written; the corrected limit is the one of the gym_env/cycle.py class, whose model
is `Cycle.AfterNextPlayer`.
