/** The betting engine of gym_env/env.py: the `HoldemTable` chip, pot and street
    bookkeeping. Each method of the table is specified here by a function from the table's
    state before the call to its state after it (or the exception it raises); the class
    in module EnvTable carries them out step by step. Seat i is `players[i]`, so
    `player.seat` is its index, and `current_player` is the seat it holds (None for the
    False that `next_player` returns). Chip amounts are exact reals: half-pot raises
    divide by two. The random card draws of the source come from a supplied sequence of
    indices, `draws`. */
module Env {
  import opened Common
  import opened Cards
  import opened Seats
  import EnvCycle
  import HandEvaluator
  import Tuples
  import Montecarlo

  /** `class Action(Enum)`, with the source's spelling of the half-pot raise. */
  datatype Action =
    | FOLD | CHECK | CALL | RAISE_3BB | RAISE_HAlF_POT | RAISE_POT | RAISE_2POT | ALL_IN
    | SMALL_BLIND | BIG_BLIND

  /** `class Stage(Enum)`. */
  datatype Stage = PREFLOP | FLOP | TURN | RIVER | END_HIDDEN | SHOWDOWN

  /** The attributes of a `HoldemTable` and of its players that the betting engine reads
      or writes. `stage` is None until the first hand is dealt. */
  datatype Table = Table(
    n: nat,
    initialStacks: real,
    smallBlind: real,
    bigBlind: real,
    stacks: seq<real>,
    cards: seq<seq<string>>,
    tableCards: seq<string>,
    deck: seq<string>,
    draws: seq<int>,
    dealerPos: int,
    playerStatus: seq<bool>,
    currentPlayer: Option<nat>,
    stage: Option<Stage>,
    lastPlayerPot: real,
    playerMaxWin: seq<real>,
    lastCaller: Option<nat>,
    lastRaiser: Option<nat>,
    raisers: seq<nat>,
    callers: seq<nat>,
    minCall: real,
    winnerIx: Option<nat>,
    communityPot: real,
    currentRoundPot: real,
    playerPots: seq<real>,
    actionSpace: seq<Action>,
    done: bool,
    cycle: EnvCycle.CycleState)

  /** One entry per player in each per-seat list, a cycle over the players, seats in
      range, and only well-formed card strings. */
  predicate WellFormed(t: Table) {
    && |t.stacks| == t.n && |t.cards| == t.n && |t.playerMaxWin| == t.n && |t.playerPots| == t.n
    && EnvCycle.WellFormed(t.cycle) && t.cycle.size == t.n
    && (t.currentPlayer.Some? ==> t.currentPlayer.value < t.n)
    && (t.winnerIx.Some? ==> t.winnerIx.value < t.n)
    && AllCards(t.deck) && AllCards(t.tableCards)
    && (forall i :: 0 <= i < t.n ==> AllCards(t.cards[i]))
  }

  /** The chips of the hand: what the players hold plus what each has put in. */
  function Total(t: Table): real {
    SumReal(t.stacks) + SumReal(t.playerMaxWin)
  }

  // ---------------------------------------------------------------------------
  // Cards.

  /** The deck `_create_card_deck` builds: for each value of "23456789TJQKA", each suit of
      "CDHS". */
  function CardDeck(): (deck: seq<string>)
    ensures |deck| == 52
  {
    seq(52, k requires 0 <= k < 52 => Montecarlo.DeckCard(k))
  }

  /** The deck holds each of the 52 cards once: the same cards as the C++ `Deck`. */
  lemma CardDeckMeaning()
    ensures Tuples.Distinct(CardDeck()) && AllCards(CardDeck())
    ensures forall c :: c in CardDeck() <==> IsCard(c)
    ensures (set c | c in CardDeck()) == Montecarlo.FullDeck()
  {
    var deck := CardDeck();
    forall i, j | 0 <= i < j < 52 ensures deck[i] != deck[j] {
      CardOfParts(i / 4, i % 4);
      CardOfParts(j / 4, j % 4);
    }
    Montecarlo.FullDeckCards();
    forall c | IsCard(c) ensures c in deck {
      assert c in Montecarlo.FullDeck();
      var i :| 0 <= i < 52 && Montecarlo.DeckCard(i) == c;
      assert deck[i] == c;
    }
  }

  /** `card = np.random.randint(0, len(deck))` then `deck.pop(card)`: numpy refuses an
      empty range; a supplied index that is missing or outside the deck is a `BadDraw`. */
  function Draw(deck: seq<string>, draws: seq<int>): (r: Result<(string, seq<string>, seq<int>)>)
    ensures r.Ok? <==> |deck| > 0 && |draws| > 0 && 0 <= draws[0] < |deck|
    ensures r.Ok? ==> var (card, rest, more) := r.value;
      && multiset(rest) + multiset{card} == multiset(deck)
      && card == deck[draws[0]] && |rest| == |deck| - 1 && more == draws[1..]
    ensures r.Ok? && AllCards(deck) ==> IsCard(r.value.0) && AllCards(r.value.1)
  {
    if |deck| == 0 then Err(ValueError)
    else if draws == [] || !(0 <= draws[0] < |deck|) then Err(BadDraw)
    else
      var k := draws[0];
      var rest := deck[..k] + deck[k + 1..];
      assert deck == deck[..k] + [deck[k]] + deck[k + 1..];
      assert forall j :: 0 <= j < |rest| ==> rest[j] == if j < k then deck[j] else deck[j + 1];
      Ok((deck[k], rest, draws[1..]))
  }

  /** The hole cards of every seat, the deck and the draws still to come. */
  datatype Shoe = Shoe(cards: seq<seq<string>>, deck: seq<string>, draws: seq<int>)

  /** Valid cards everywhere. */
  predicate ShoeCards(s: Shoe) {
    AllCards(s.deck) && forall j :: 0 <= j < |s.cards| ==> AllCards(s.cards[j])
  }

  /** The cards held by seats i and after. */
  function HeldFrom(cards: seq<seq<string>>, i: nat): multiset<string>
    decreases |cards| - i
  {
    if i >= |cards| then multiset{} else multiset(cards[i]) + HeldFrom(cards, i + 1)
  }

  /** Seat i's turn in the deal loop of `_distribute_cards`: its cards are cleared, and a
      seat with chips draws two. */
  function DealSeat(stacks: seq<real>, s: Shoe, i: nat): (r: Result<Shoe>)
    requires i < |stacks| == |s.cards|
    ensures r.Ok? ==> |r.value.cards| == |s.cards|
    ensures r.Ok? ==> forall j :: 0 <= j < |s.cards| && j != i ==> r.value.cards[j] == s.cards[j]
    ensures r.Ok? ==> |r.value.cards[i]| == (if stacks[i] > 0.0 then 2 else 0)
    ensures r.Ok? ==> multiset(r.value.deck) + multiset(r.value.cards[i]) == multiset(s.deck)
    ensures r.Ok? && ShoeCards(s) ==> ShoeCards(r.value)
  {
    if stacks[i] <= 0.0 then Ok(s.(cards := s.cards[i := []]))
    else
      var (first, d1, r1) :- Draw(s.deck, s.draws);
      var (second, d2, r2) :- Draw(d1, r1);
      var r := Shoe(s.cards[i := [first, second]], d2, r2);
      assert ShoeCards(s) ==> ShoeCards(r) by {
        if ShoeCards(s) {
          forall j | 0 <= j < |r.cards| ensures AllCards(r.cards[j]) {
            if j != i {
              assert r.cards[j] == s.cards[j];
            }
          }
        }
      }
      Ok(r)
  }

  /** The deal loop from seat i on: the hands before seat i stay, every seat from i on
      with chips gets two cards and every other seat none, and the new hands together with
      the deck left are the deck the loop started from. */
  function DealFrom(stacks: seq<real>, s: Shoe, i: nat): (r: Result<Shoe>)
    requires i <= |stacks| == |s.cards|
    ensures r.Ok? ==> |r.value.cards| == |s.cards|
    ensures r.Ok? && ShoeCards(s) ==> ShoeCards(r.value)
    ensures r.Ok? ==> forall j :: 0 <= j < i ==> r.value.cards[j] == s.cards[j]
    ensures r.Ok? ==> forall j :: i <= j < |stacks| ==> |r.value.cards[j]| == if stacks[j] > 0.0 then 2 else 0
    ensures r.Ok? ==> multiset(r.value.deck) + HeldFrom(r.value.cards, i) == multiset(s.deck)
    decreases |stacks| - i
  {
    if i == |stacks| then Ok(s)
    else
      var s1 :- DealSeat(stacks, s, i);
      var r :- DealFrom(stacks, s1, i + 1);
      assert r.cards[i] == s1.cards[i];
      assert HeldFrom(r.cards, i) == multiset(s1.cards[i]) + HeldFrom(r.cards, i + 1);
      Ok(r)
  }

  /** `_distribute_cards` on the table: every seat with chips gets two cards from the deck,
      every other seat none, no card is lost or made up, and nothing else changes. */
  function Distribute(t: Table): (r: Result<Table>)
    requires WellFormed(t)
    ensures r.Ok? ==> WellFormed(r.value) && r.value == t.(cards := r.value.cards, deck := r.value.deck, draws := r.value.draws)
    ensures r.Ok? ==> forall j :: 0 <= j < t.n ==> |r.value.cards[j]| == if t.stacks[j] > 0.0 then 2 else 0
    ensures r.Ok? ==> multiset(r.value.deck) + HeldFrom(r.value.cards, 0) == multiset(t.deck)
  {
    var s := Shoe(t.cards, t.deck, t.draws);
    var d :- DealFrom(t.stacks, s, 0);
    assert ShoeCards(s);
    Ok(t.(cards := d.cards, deck := d.deck, draws := d.draws))
  }

  /** `_distribute_cards_to_table(k)`: k cards move from the deck to the end of the table
      cards, none is lost or made up, and nothing else changes. */
  function DealToTable(t: Table, k: nat): (r: Result<Table>)
    requires WellFormed(t)
    ensures r.Ok? ==> WellFormed(r.value)
    ensures r.Ok? ==> var d := r.value;
      && d.n == t.n && d.done == t.done && d.stage == t.stage && d.cycle == t.cycle && d.cards == t.cards
      && d.stacks == t.stacks && d.playerMaxWin == t.playerMaxWin && d.playerPots == t.playerPots
      && d.currentRoundPot == t.currentRoundPot && d.communityPot == t.communityPot
    ensures r.Ok? ==> |r.value.tableCards| == |t.tableCards| + k && r.value.tableCards[..|t.tableCards|] == t.tableCards
    ensures r.Ok? ==> multiset(r.value.deck) + multiset(r.value.tableCards) == multiset(t.deck) + multiset(t.tableCards)
    decreases k
  {
    if k == 0 then Ok(t)
    else
      var (card, rest, more) :- Draw(t.deck, t.draws);
      var next := t.(tableCards := t.tableCards + [card], deck := rest, draws := more);
      var r :- DealToTable(next, k - 1);
      assert r.tableCards[..|t.tableCards|] == r.tableCards[..|next.tableCards|][..|t.tableCards|];
      Ok(r)
  }

  // ---------------------------------------------------------------------------
  // Decisions.

  /** What the decision costs the seat. CALL pays up to the last pot or the whole stack,
      the blinds pay the blind or the whole stack, the raises pay their share of the pot;
      RAISE_3BB pays three times the community pot plus the big blind. */
  function Contribution(t: Table, action: Action, seat: nat): real
    requires WellFormed(t) && seat < t.n
  {
    match action
    case CALL => MinReal(t.lastPlayerPot - t.playerPots[seat], t.stacks[seat])
    case CHECK => 0.0
    case RAISE_3BB => (t.communityPot + t.bigBlind) * 3.0
    case RAISE_HAlF_POT => (t.communityPot + t.currentRoundPot) / 2.0
    case RAISE_POT => t.communityPot + t.currentRoundPot
    case RAISE_2POT => (t.communityPot + t.currentRoundPot) * 2.0
    case ALL_IN => t.stacks[seat]
    case SMALL_BLIND => MinReal(t.smallBlind, t.stacks[seat])
    case BIG_BLIND => MinReal(t.bigBlind, t.stacks[seat])
    case FOLD => 0.0
  }

  /** What the decision records before any chips move: callers, raisers, a check, the
      blinds' raiser and the big blind's `mark_bb`. */
  function Record(t: Table, action: Action, seat: nat): (r: Table)
    requires WellFormed(t)
    ensures WellFormed(r) && r.stage == t.stage && r.n == t.n && r.done == t.done
    ensures r.stacks == t.stacks && r.playerPots == t.playerPots
  {
    match action
    case CALL => t.(callers := t.callers + [seat], lastCaller := Some(seat))
    case CHECK => t.(cycle := EnvCycle.AfterMarkChecker(t.cycle))
    case SMALL_BLIND => t.(lastRaiser := Some(seat))
    case BIG_BLIND => t.(lastRaiser := Some(seat), cycle := EnvCycle.AfterMarkBb(t.cycle))
    case FOLD => t
    case _ => t.(raisers := t.raisers + [seat])
  }

  /** `mark_out_of_cash_but_contributed` on the table's cycle. */
  function MarkOutOfCash(t: Table): (r: Result<Table>)
    requires WellFormed(t)
    ensures r.Ok? ==> WellFormed(r.value) && r.value == t.(cycle := r.value.cycle)
    ensures r.Ok? ==> r.value.cycle.lastRaiser == t.cycle.lastRaiser
  {
    var c :- EnvCycle.AfterMarkOutOfCash(t.cycle);
    Ok(t.(cycle := c))
  }

  /** The chip moves of a decision that contributes c: a raiser is recorded when c is above
      `min_call`, the stack pays c into the seat's pot, the street pot and the seat's side
      pot ledger `player_max_win`, a stack emptied by a positive contribution is marked all
      in, and `min_call` becomes the larger of itself and c. */
  function Contribute(t: Table, seat: nat, c: real): (r: Result<Table>)
    requires WellFormed(t) && seat < t.n
    ensures r.Ok? ==> WellFormed(r.value) && r.value.stage == t.stage
    ensures r.Ok? ==> r.value.n == t.n && r.value.done == t.done
  {
    var t3 :- AllInMark(Paid(t, seat, c), seat, c);
    Ok(t3.(minCall := MaxReal(t3.minCall, c), playerMaxWin := t3.playerMaxWin[seat := t3.playerMaxWin[seat] + c]))
  }

  /** FOLD: deactivates the current seat and marks it folded; the log line after it reads
      `current_player.seat`. */
  function Fold(t: Table): (r: Result<Table>)
    requires WellFormed(t)
    ensures r.Ok? ==> WellFormed(r.value) && r.value == t.(cycle := r.value.cycle)
  {
    var c1 :- EnvCycle.AfterDeactivateCurrent(t.cycle);
    var c2 :- EnvCycle.AfterMarkFolder(c1);
    if t.currentPlayer.None? then Err(AttributeError) else Ok(t.(cycle := c2))
  }

  /** `_process_decision(action)`: anything but a blind must be in `action_space`. */
  function ProcessDecision(t: Table, action: Action): (r: Result<Table>)
    requires WellFormed(t)
    ensures r.Ok? ==> WellFormed(r.value) && r.value.stage == t.stage
    ensures r.Ok? ==> r.value.n == t.n && r.value.done == t.done
  {
    if action != SMALL_BLIND && action != BIG_BLIND && action !in t.actionSpace then Err(AssertionError)
    else if action == FOLD then Fold(t)
    else if t.currentPlayer.None? then Err(AttributeError)
    else
      var seat := t.currentPlayer.value;
      Contribute(Record(t, action, seat), seat, Contribution(t, action, seat))
  }

  /** The decision keeps the chips of the hand: what leaves the stack enters the ledger. */
  lemma ProcessDecisionConserves(t: Table, action: Action)
    requires WellFormed(t) && ProcessDecision(t, action).Ok?
    ensures Total(ProcessDecision(t, action).value) == Total(t)
  {
    if action != FOLD {
      var seat := t.currentPlayer.value;
      ContributeMoves(Record(t, action, seat), seat, Contribution(t, action, seat));
    }
  }

  /** A decision other than FOLD moves its Contribution from the current seat's stack into
      its pot. */
  lemma DecisionPays(t: Table, action: Action)
    requires WellFormed(t) && ProcessDecision(t, action).Ok? && action != FOLD
    ensures t.currentPlayer.Some?
    ensures var seat := t.currentPlayer.value;
      var d := ProcessDecision(t, action).value;
      var c := Contribution(t, action, seat);
      d.stacks[seat] == t.stacks[seat] - c && d.playerPots[seat] == t.playerPots[seat] + c
  {
    var seat := t.currentPlayer.value;
    ContributeMoves(Record(t, action, seat), seat, Contribution(t, action, seat));
  }

  /** The all-in check: a contribution that empties the stack marks the seat out of cash. */
  function AllInMark(t: Table, seat: nat, c: real): (r: Result<Table>)
    requires WellFormed(t) && seat < t.n
    ensures r.Ok? ==> WellFormed(r.value) && r.value == t.(cycle := r.value.cycle)
  {
    if t.stacks[seat] == 0.0 && c > 0.0 then MarkOutOfCash(t) else Ok(t)
  }

  /** The state after `mark_raiser` and the chip moves, before the all-in check. */
  function Paid(t: Table, seat: nat, c: real): (r: Table)
    requires WellFormed(t) && seat < t.n
    ensures WellFormed(r) && r.n == t.n && r.done == t.done && r.stage == t.stage
  {
    var t1 := if c > t.minCall then t.(lastRaiser := Some(seat), cycle := EnvCycle.AfterMarkRaiser(t.cycle)) else t;
    var t2 := t1.(stacks := t1.stacks[seat := t1.stacks[seat] - c], playerPots := t1.playerPots[seat := t1.playerPots[seat] + c]);
    t2.(currentRoundPot := t2.currentRoundPot + c, lastPlayerPot := t2.playerPots[seat])
  }

  /** Contribute is Paid, then the all-in mark, then `min_call` and the ledger. */
  lemma ContributeStages(t: Table, seat: nat, c: real)
    requires WellFormed(t) && seat < t.n && Contribute(t, seat, c).Ok?
    ensures var p := Paid(t, seat, c);
      var d := Contribute(t, seat, c).value;
      && d == p.(cycle := d.cycle, minCall := MaxReal(p.minCall, c),
                 playerMaxWin := p.playerMaxWin[seat := p.playerMaxWin[seat] + c])
      && (p.stacks[seat] == 0.0 && c > 0.0 ==> MarkOutOfCash(p).Ok? && d.cycle == MarkOutOfCash(p).value.cycle)
      && (!(p.stacks[seat] == 0.0 && c > 0.0) ==> d.cycle == p.cycle)
  {
  }

  /** A contribution c moves c from the stack into the seat's pot, the street pot and the
      ledger, keeps the chips of the hand and the gap between the seats' pots and the street
      pot, and leaves `min_call` at the larger of itself and c. */
  lemma ContributeMoves(t: Table, seat: nat, c: real)
    requires WellFormed(t) && seat < t.n && Contribute(t, seat, c).Ok?
    ensures var d := Contribute(t, seat, c).value;
      && d.stacks == t.stacks[seat := t.stacks[seat] - c]
      && d.playerPots == t.playerPots[seat := t.playerPots[seat] + c]
      && d.playerMaxWin == t.playerMaxWin[seat := t.playerMaxWin[seat] + c]
      && d.currentRoundPot == t.currentRoundPot + c
      && d.lastPlayerPot == t.playerPots[seat] + c
      && d.minCall == MaxReal(t.minCall, c)
      && d.communityPot == t.communityPot
      && Total(d) == Total(t)
      && SumReal(d.playerPots) - d.currentRoundPot == SumReal(t.playerPots) - t.currentRoundPot
  {
    ContributeFields(t, seat, c);
    MovedKeepsTotals(t, Contribute(t, seat, c).value, seat, c);
  }

  /** Moving c from a seat's stack into its pot, the street pot and the ledger keeps the
      chips of the hand and the gap between the seats' pots and the street pot. */
  lemma MovedKeepsTotals(t: Table, d: Table, seat: nat, c: real)
    requires WellFormed(t) && seat < t.n
    requires d.stacks == t.stacks[seat := t.stacks[seat] - c]
    requires d.playerPots == t.playerPots[seat := t.playerPots[seat] + c]
    requires d.playerMaxWin == t.playerMaxWin[seat := t.playerMaxWin[seat] + c]
    requires d.currentRoundPot == t.currentRoundPot + c
    ensures Total(d) == Total(t)
    ensures SumReal(d.playerPots) - d.currentRoundPot == SumReal(t.playerPots) - t.currentRoundPot
  {
    SumRealUpdate(t.stacks, seat, t.stacks[seat] - c);
    SumRealUpdate(t.playerMaxWin, seat, t.playerMaxWin[seat] + c);
    SumRealUpdate(t.playerPots, seat, t.playerPots[seat] + c);
  }

  /** The fields a contribution moves, one by one. */
  lemma ContributeFields(t: Table, seat: nat, c: real)
    requires WellFormed(t) && seat < t.n && Contribute(t, seat, c).Ok?
    ensures var d := Contribute(t, seat, c).value;
      && d.stacks == t.stacks[seat := t.stacks[seat] - c]
      && d.playerPots == t.playerPots[seat := t.playerPots[seat] + c]
      && d.playerMaxWin == t.playerMaxWin[seat := t.playerMaxWin[seat] + c]
      && d.currentRoundPot == t.currentRoundPot + c
      && d.lastPlayerPot == t.playerPots[seat] + c
      && d.minCall == MaxReal(t.minCall, c)
      && d.communityPot == t.communityPot
  {
    ContributeStages(t, seat, c);
    PaidFields(t, seat, c);
  }

  /** What Paid moves. */
  lemma PaidFields(t: Table, seat: nat, c: real)
    requires WellFormed(t) && seat < t.n
    ensures var p := Paid(t, seat, c);
      && p.stacks == t.stacks[seat := t.stacks[seat] - c]
      && p.playerPots == t.playerPots[seat := t.playerPots[seat] + c]
      && p.playerMaxWin == t.playerMaxWin
      && p.currentRoundPot == t.currentRoundPot + c
      && p.lastPlayerPot == t.playerPots[seat] + c
      && p.minCall == t.minCall && p.communityPot == t.communityPot
  {
  }

  /** A contribution above `min_call` records the seat as the last raiser, at the cycle's
      current step; any other leaves both raiser records as they were. */
  lemma ContributeRaiser(t: Table, seat: nat, c: real)
    requires WellFormed(t) && seat < t.n && Contribute(t, seat, c).Ok?
    ensures var d := Contribute(t, seat, c).value;
      && (c > t.minCall ==> d.lastRaiser == Some(seat) && d.cycle.lastRaiser == Some(t.cycle.counter))
      && (c <= t.minCall ==> d.lastRaiser == t.lastRaiser && d.cycle.lastRaiser == t.cycle.lastRaiser)
  {
    ContributeStages(t, seat, c);
  }

  /** A positive contribution that empties the stack marks the cycle's current seat all in:
      it can no longer move but can still win. */
  lemma ContributeAllIn(t: Table, seat: nat, c: real)
    requires WellFormed(t) && seat < t.n && Contribute(t, seat, c).Ok?
    requires t.stacks[seat] - c == 0.0 && c > 0.0 && 0 <= t.cycle.idx < t.n
    ensures var d := Contribute(t, seat, c).value;
      d.cycle.outOfCash[t.cycle.idx] && !d.cycle.canMove[t.cycle.idx]
  {
    ContributeStages(t, seat, c);
    var p := Paid(t, seat, c);
    assert p.cycle.idx == t.cycle.idx && p.cycle.canMove == t.cycle.canMove;
    if p.cycle.canMove[p.cycle.idx] {
      EnvCycle.OutOfCashMarked(p.cycle);
    }
  }

  /** FOLD moves no chips: it passes its assertion only for a seat that can still move,
      which it then deactivates and marks as folded. */
  lemma FoldMovesNoChips(t: Table)
    requires WellFormed(t) && ProcessDecision(t, FOLD).Ok?
    ensures var d := ProcessDecision(t, FOLD).value;
      && FOLD in t.actionSpace && t.currentPlayer.Some?
      && (0 <= t.cycle.idx < t.n ==> t.cycle.canMove[t.cycle.idx])
    ensures var d := ProcessDecision(t, FOLD).value;
      && d == t.(cycle := d.cycle)
      && Total(d) == Total(t)
      && (0 <= t.cycle.idx < t.n ==>
            !d.cycle.canMove[t.cycle.idx] && t.cycle.folder.Some? && d.cycle.folder.value[t.cycle.idx]
            && !EnvCycle.PotentialWinners(d.cycle)[t.cycle.idx])
  {
  }

  /** A contribution that empties the stack marks the seat all in: it can no longer move
      but can still win. */
  lemma AllInMarked(t: Table, action: Action)
    requires WellFormed(t) && ProcessDecision(t, action).Ok? && action != FOLD
    requires var seat := t.currentPlayer.value; var c := Contribution(t, action, seat);
      t.stacks[seat] - c == 0.0 && c > 0.0
    requires 0 <= t.cycle.idx < t.n
    ensures var d := ProcessDecision(t, action).value;
      d.cycle.outOfCash[t.cycle.idx] && !d.cycle.canMove[t.cycle.idx]
  {
    var seat := t.currentPlayer.value;
    var r := Record(t, action, seat);
    assert r.stacks == t.stacks && r.cycle.idx == t.cycle.idx;
    ContributeAllIn(r, seat, Contribution(t, action, seat));
  }

  /** CALL brings the seat's pot up to the last pot when the stack covers the difference,
      and otherwise empties the stack; ALL_IN empties it; a blind pays the blind when the
      stack covers it and otherwise empties the stack. None of these pays more than the
      stack. */
  lemma CallAndBlindAmounts(t: Table, action: Action)
    requires WellFormed(t) && ProcessDecision(t, action).Ok?
    requires action in {CALL, ALL_IN, SMALL_BLIND, BIG_BLIND}
    ensures var seat := t.currentPlayer.value;
      var d := ProcessDecision(t, action).value;
      var owed := t.lastPlayerPot - t.playerPots[seat];
      var blind := if action == SMALL_BLIND then t.smallBlind else t.bigBlind;
      && (action == CALL && owed <= t.stacks[seat] ==> d.playerPots[seat] == t.lastPlayerPot)
      && (action == CALL && owed > t.stacks[seat] ==> d.stacks[seat] == 0.0)
      && (action == ALL_IN ==> d.stacks[seat] == 0.0)
      && (action in {SMALL_BLIND, BIG_BLIND} && blind <= t.stacks[seat] ==>
            d.stacks[seat] == t.stacks[seat] - blind)
      && (action in {SMALL_BLIND, BIG_BLIND} && blind > t.stacks[seat] ==> d.stacks[seat] == 0.0)
      && (action != CALL && t.stacks[seat] >= 0.0 ==> d.stacks[seat] >= 0.0)
  {
    DecisionPays(t, action);
  }

  // ---------------------------------------------------------------------------
  // Legal moves.

  /** `_get_legal_moves`: CHECK when the street pot is empty, else CALL and FOLD; then, if
      raising is allowed, the raises and ALL_IN the current stack allows. */
  function LegalMoves(t: Table): (r: Result<seq<Action>>)
    requires WellFormed(t)
  {
    var base := if t.currentRoundPot == 0.0 then [CHECK] else [CALL, FOLD];
    var allowed :- EnvCycle.IsRaisingAllowed(t.cycle);
    if !allowed then Ok(base)
    else if t.currentPlayer.None? then Err(AttributeError)
    else Ok(base + Raises(t, t.stacks[t.currentPlayer.value]))
  }

  /** The amount a raise is offered for. */
  function RaiseAmount(t: Table, action: Action): real {
    match action
    case RAISE_3BB => 3.0 * t.bigBlind
    case RAISE_HAlF_POT => (t.communityPot + t.currentRoundPot) / 2.0
    case RAISE_POT => t.communityPot + t.currentRoundPot
    case _ => (t.communityPot + t.currentRoundPot) * 2.0
  }

  /** A raise is offered when the stack covers its amount and the amount is at least
      `min_call`. */
  predicate Offered(t: Table, stack: real, action: Action) {
    stack >= RaiseAmount(t, action) >= t.minCall
  }

  /** The raises in the order the source appends them, then ALL_IN for a stack above 0. */
  function Raises(t: Table, stack: real): (r: seq<Action>) {
    (if Offered(t, stack, RAISE_3BB) then [RAISE_3BB] else [])
    + (if Offered(t, stack, RAISE_HAlF_POT) then [RAISE_HAlF_POT] else [])
    + (if Offered(t, stack, RAISE_POT) then [RAISE_POT] else [])
    + (if Offered(t, stack, RAISE_2POT) then [RAISE_2POT] else [])
    + (if stack > 0.0 then [ALL_IN] else [])
  }

  /** The pot-sized moves. */
  predicate IsRaise(a: Action) {
    a == RAISE_3BB || a == RAISE_HAlF_POT || a == RAISE_POT || a == RAISE_2POT
  }

  lemma RaisesMembers(t: Table, stack: real, a: Action)
    ensures a in Raises(t, stack) <==> (IsRaise(a) && Offered(t, stack, a)) || (a == ALL_IN && stack > 0.0)
  {
  }

  /** CHECK is offered exactly when the whole street pot is 0, CALL and FOLD exactly when it
      is not, the blinds never; a raise exactly when raising is allowed and the stack covers
      an amount of at least `min_call`; ALL_IN exactly when raising is allowed and the stack
      is positive. */
  lemma LegalMovesMeaning(t: Table, a: Action)
    requires WellFormed(t) && LegalMoves(t).Ok?
    ensures var moves := LegalMoves(t).value;
      var allowed := EnvCycle.IsRaisingAllowed(t.cycle) == Ok(true);
      && (allowed ==> t.currentPlayer.Some?)
      && (a == CHECK ==> (a in moves <==> t.currentRoundPot == 0.0))
      && (a == CALL || a == FOLD ==> (a in moves <==> t.currentRoundPot != 0.0))
      && (a == SMALL_BLIND || a == BIG_BLIND ==> a !in moves)
      && (IsRaise(a) ==> (a in moves <==> allowed && Offered(t, t.stacks[t.currentPlayer.value], a)))
      && (a == ALL_IN ==> (a in moves <==> allowed && t.stacks[t.currentPlayer.value] > 0.0))
  {
    if EnvCycle.IsRaisingAllowed(t.cycle) == Ok(true) {
      RaisesMembers(t, t.stacks[t.currentPlayer.value], a);
    }
  }

  /** Every legal move other than RAISE_3BB costs no more than the stack, so a seat with
      chips never goes below 0 by it; RAISE_3BB is covered too while the community pot is
      empty. */
  lemma LegalMovesAffordable(t: Table, action: Action)
    requires WellFormed(t) && LegalMoves(t).Ok? && t.currentPlayer.Some?
    requires action in LegalMoves(t).value
    requires action != RAISE_3BB || t.communityPot == 0.0
    requires t.stacks[t.currentPlayer.value] >= 0.0
    requires ProcessDecision(t.(actionSpace := LegalMoves(t).value), action).Ok?
    ensures ProcessDecision(t.(actionSpace := LegalMoves(t).value), action).value.stacks[t.currentPlayer.value] >= 0.0
  {
    var u := t.(actionSpace := LegalMoves(t).value);
    LegalMovesMeaning(t, action);
    if action != FOLD {
      DecisionPays(u, action);
    }
  }

  /** The RAISE_3BB guard checks the stack against three big blinds, but the raise pays
      three times the community pot plus the big blind: with 10 in the community pot, a
      stack of 6 and big blind 2 it is offered and leaves the stack at -30. */
  lemma Raise3BBOverdraws(t: Table)
    requires WellFormed(t) && t.n == 2 && t.currentPlayer == Some(0) && t.stacks[0] == 6.0
    requires t.bigBlind == 2.0 && t.communityPot == 10.0 && t.minCall == 0.0 && t.lastRaiser.None?
    requires EnvCycle.IsRaisingAllowed(t.cycle) == Ok(true)
    ensures LegalMoves(t).Ok? && RAISE_3BB in LegalMoves(t).value
    ensures var u := t.(actionSpace := LegalMoves(t).value);
      ProcessDecision(u, RAISE_3BB).Ok? ==> ProcessDecision(u, RAISE_3BB).value.stacks[0] == -30.0
  {
    var u := t.(actionSpace := LegalMoves(t).value);
    assert RAISE_3BB in u.actionSpace;
    var c := Contribution(u, RAISE_3BB, 0);
    assert c == 36.0;
    if ProcessDecision(u, RAISE_3BB).Ok? {
      ContributeMoves(Record(u, RAISE_3BB, 0), 0, c);
    }
  }

  // ---------------------------------------------------------------------------
  // Streets.

  /** The `_end_round` / `_initiate_round` recursion shortens with each street: PREFLOP 4,
      FLOP 3, TURN 2, RIVER 1, then 0. */
  function Measure(stage: Option<Stage>): nat {
    match stage
    case Some(PREFLOP) => 4
    case Some(FLOP) => 3
    case Some(TURN) => 2
    case Some(RIVER) => 1
    case _ => 0
  }

  /** `_close_round`: the seats' pots go into the community pot. */
  function CloseRound(t: Table): (r: Table)
    requires WellFormed(t)
    ensures WellFormed(r)
  {
    t.(communityPot := t.communityPot + SumReal(t.playerPots), playerPots := Repeat(0.0, t.n))
  }

  /** `_clean_up_pots`: the street pot goes into the community pot. */
  function CleanUpPots(t: Table): (r: Table)
    requires WellFormed(t)
    ensures WellFormed(r)
  {
    t.(communityPot := t.communityPot + t.currentRoundPot, currentRoundPot := 0.0, playerPots := Repeat(0.0, t.n))
  }

  /** `_end_round`: the next street, with 3, 1 and 1 more cards on the table after
      PREFLOP, FLOP and TURN, and SHOWDOWN after RIVER. */
  function EndRound(t: Table): (r: Result<Table>)
    requires WellFormed(t)
    ensures r.Ok? ==> WellFormed(r.value) && r.value.n == t.n && r.value.done == t.done
    ensures r.Ok? ==> Measure(r.value.stage) == if Measure(t.stage) > 0 then Measure(t.stage) - 1 else 0
    ensures r.Ok? && Measure(t.stage) == 0 ==> r.value.stage == t.stage
  {
    var t1 := CloseRound(t).(stage := NextStage(t.stage));
    var t2 :- DealToTable(t1, CardsFor(t.stage));
    NextStageShortens(t.stage);
    Ok(CleanUpPots(t2))
  }

  /** Each street's successor is one step shorter, until the stages that end a hand. */
  lemma NextStageShortens(stage: Option<Stage>)
    ensures Measure(NextStage(stage)) == if Measure(stage) > 0 then Measure(stage) - 1 else 0
    ensures Measure(stage) == 0 ==> NextStage(stage) == stage
  {
  }

  /** The street after each stage. */
  function NextStage(stage: Option<Stage>): Option<Stage> {
    match stage
    case Some(PREFLOP) => Some(FLOP)
    case Some(FLOP) => Some(TURN)
    case Some(TURN) => Some(RIVER)
    case Some(RIVER) => Some(SHOWDOWN)
    case _ => stage
  }

  /** The table cards dealt when each stage ends. */
  function CardsFor(stage: Option<Stage>): nat {
    match stage
    case Some(PREFLOP) => 3
    case Some(FLOP) => 1
    case Some(TURN) => 1
    case _ => 0
  }

  /** The street ends on the next stage with its cards dealt, empties the seats' pots and
      the street pot into the community pot, and moves no chip of the players. */
  lemma EndRoundMeaning(t: Table)
    requires WellFormed(t) && EndRound(t).Ok?
    ensures var d := EndRound(t).value;
      && d.stage == NextStage(t.stage)
      && |d.tableCards| == |t.tableCards| + CardsFor(t.stage)
      && d.tableCards[..|t.tableCards|] == t.tableCards
      && d.communityPot == t.communityPot + SumReal(t.playerPots) + t.currentRoundPot
      && d.currentRoundPot == 0.0 && d.playerPots == Repeat(0.0, t.n)
      && d.stacks == t.stacks && d.playerMaxWin == t.playerMaxWin && d.cycle == t.cycle
  {
  }

  /** Every contribution enters both a seat's pot and the street pot, so the two are equal;
      `_end_round` then adds both to the community pot, counting the street twice. */
  lemma EndRoundCountsStreetTwice(t: Table)
    requires WellFormed(t) && EndRound(t).Ok? && SumReal(t.playerPots) == t.currentRoundPot
    ensures EndRound(t).value.communityPot == t.communityPot + 2.0 * t.currentRoundPot
  {
    EndRoundMeaning(t);
  }

  /** `_initiate_round` for the current stage: the street's bookkeeping is reset; preflop
      sets a step limit of 2n + 2 and posts the blinds; the later streets make one
      `_next_player` call with a limit of 2n; showdown only resets; anything else raises
      RuntimeError. */
  function InitiateRound(t: Table): (r: Result<Table>)
    requires WellFormed(t)
    ensures r.Ok? ==> WellFormed(r.value) && Measure(r.value.stage) <= Measure(t.stage)
    ensures r.Ok? ==> r.value.n == t.n && r.value.done == t.done
    ensures t.stage.None? || t.stage == Some(END_HIDDEN) ==> r == Err(RuntimeError)
    ensures t.stage == Some(SHOWDOWN) ==> r.Ok? && r.value.stage == t.stage
    decreases Measure(t.stage), if Measure(t.stage) > 0 then 5 else 0
  {
    if t.stage == Some(PREFLOP) then Preflop(t)
    else if t.stage == Some(FLOP) || t.stage == Some(TURN) || t.stage == Some(RIVER) then
      NextPlayer(StepLimit(RoundReset(t), t.n * 2))
    else if t.stage == Some(SHOWDOWN) then Ok(RoundReset(t))
    else Err(RuntimeError)
  }

  /** Preflop, `_initiate_round` allows `2 * n + 2` steps and posts the blinds. */
  function Preflop(t: Table): (r: Result<Table>)
    requires WellFormed(t)
    ensures r.Ok? ==> WellFormed(r.value) && Measure(r.value.stage) <= Measure(t.stage)
    ensures r.Ok? ==> r.value.n == t.n && r.value.done == t.done
    decreases Measure(t.stage), 4
  {
    Blinds(StepLimit(RoundReset(t), t.n * 2 + 2))
  }

  /** The resets at the head of `_initiate_round`, with the cycle's `new_round_reset`. */
  function RoundReset(t: Table): (r: Table)
    requires WellFormed(t)
    ensures WellFormed(r)
  {
    t.(lastCaller := None, lastRaiser := None, raisers := [], callers := [], minCall := 0.0,
       cycle := EnvCycle.AfterNewRoundReset(t.cycle))
  }

  /** `player_cycle.max_steps_total = limit`. */
  function StepLimit(t: Table, limit: int): (r: Table)
    requires WellFormed(t)
    ensures WellFormed(r)
  {
    t.(cycle := t.cycle.(maxStepsTotal := Some(limit)))
  }

  /** The preflop part of `_initiate_round`: next player, small blind, next player, big
      blind, next player. */
  function Blinds(t: Table): (r: Result<Table>)
    requires WellFormed(t)
    ensures r.Ok? ==> WellFormed(r.value) && Measure(r.value.stage) <= Measure(t.stage)
    ensures r.Ok? ==> r.value.n == t.n && r.value.done == t.done
    decreases Measure(t.stage), 3
  {
    var t4 :- Blind(t, SMALL_BLIND);
    var t6 :- Blind(t4, BIG_BLIND);
    NextPlayer(t6)
  }

  /** `_next_player`, then that seat's blind. */
  function Blind(t: Table, action: Action): (r: Result<Table>)
    requires WellFormed(t)
    ensures r.Ok? ==> WellFormed(r.value) && Measure(r.value.stage) <= Measure(t.stage)
    ensures r.Ok? ==> r.value.n == t.n && r.value.done == t.done
    decreases Measure(t.stage), 2
  {
    var t1 :- NextPlayer(t);
    ProcessDecision(t1, action)
  }

  /** `_next_player`: the cycle's next seat becomes the current player; when it returns
      False, the hand is over without a showdown if fewer than two seats are alive, and
      otherwise the street ends and the next one starts. */
  function NextPlayer(t: Table): (r: Result<Table>)
    requires WellFormed(t)
    ensures r.Ok? ==> WellFormed(r.value) && Measure(r.value.stage) <= Measure(t.stage)
    ensures r.Ok? ==> r.value.n == t.n && r.value.done == t.done
    decreases Measure(t.stage), 1
  {
    var (c, seat) :- EnvCycle.AfterNextPlayer(t.cycle, 1);
    CycleStepWellFormed(t.cycle);
    var t1 := t.(cycle := c, currentPlayer := seat);
    if seat.Some? then Ok(t1)
    else if CountTrue(c.alive) < 2 then Ok(t1.(stage := Some(END_HIDDEN)))
    else
      var t2 :- EndRound(t1);
      InitiateRound(t2)
  }

  /** The cycle's step keeps one entry per seat and returns a seat in range. */
  lemma CycleStepWellFormed(c: EnvCycle.CycleState)
    requires EnvCycle.WellFormed(c) && EnvCycle.AfterNextPlayer(c, 1).Ok?
    ensures var (d, seat) := EnvCycle.AfterNextPlayer(c, 1).value;
      EnvCycle.WellFormed(d) && d.size == c.size && (seat.Some? ==> seat.value < c.size)
  {
    if EnvCycle.Eligible(c) >= 2 {
      var moved := c.(idx := (c.idx + 1) % c.size, counter := c.counter + 1,
                      secondRound := c.counter + 1 > c.size || c.secondRound);
      if EnvCycle.AfterNextPlayer(c, 1) == EnvCycle.AfterSkip(moved) {
        SkipMeaning(moved.canMove, moved.idx, moved.counter, moved.maxStepsTotal);
      }
      if EnvCycle.AfterNextPlayer(c, 1).value.1.Some? {
        EnvCycle.NextPlayerSeat(c, 1);
      }
    }
  }

  /** The street pot is the sum of the seats' pots. */
  predicate PotsAgree(t: Table) {
    SumReal(t.playerPots) == t.currentRoundPot
  }

  /** A street's moves keep the chips of the hand and the street pot equal to the seats'
      pots, through every `_next_player`, `_end_round` and `_initiate_round` call they
      set off. */
  lemma {:induction false} NextPlayerConserves(t: Table)
    requires WellFormed(t) && NextPlayer(t).Ok?
    ensures Total(NextPlayer(t).value) == Total(t)
    ensures PotsAgree(t) ==> PotsAgree(NextPlayer(t).value)
    decreases Measure(t.stage), 1
  {
    var (c, seat) := EnvCycle.AfterNextPlayer(t.cycle, 1).value;
    CycleStepWellFormed(t.cycle);
    var t1 := t.(cycle := c, currentPlayer := seat);
    if seat.None? && CountTrue(c.alive) >= 2 {
      var t2 := EndRound(t1).value;
      EndRoundMeaning(t1);
      SumRealRepeatZero(t.n);
      InitiateRoundConserves(t2);
    }
  }

  lemma {:induction false} InitiateRoundConserves(t: Table)
    requires WellFormed(t) && InitiateRound(t).Ok?
    ensures Total(InitiateRound(t).value) == Total(t)
    ensures PotsAgree(t) ==> PotsAgree(InitiateRound(t).value)
    decreases Measure(t.stage), if Measure(t.stage) > 0 then 5 else 0
  {
    if t.stage == Some(PREFLOP) {
      PreflopConserves(t);
    } else if t.stage == Some(FLOP) || t.stage == Some(TURN) || t.stage == Some(RIVER) {
      StreetConserves(t);
    }
  }

  lemma {:induction false} PreflopConserves(t: Table)
    requires WellFormed(t) && InitiateRound(t).Ok? && t.stage == Some(PREFLOP)
    ensures Total(InitiateRound(t).value) == Total(t)
    ensures PotsAgree(t) ==> PotsAgree(InitiateRound(t).value)
    decreases Measure(t.stage), 4
  {
    BlindsConserve(StepLimit(RoundReset(t), t.n * 2 + 2));
  }

  lemma {:induction false} StreetConserves(t: Table)
    requires WellFormed(t) && InitiateRound(t).Ok?
    requires t.stage == Some(FLOP) || t.stage == Some(TURN) || t.stage == Some(RIVER)
    ensures Total(InitiateRound(t).value) == Total(t)
    ensures PotsAgree(t) ==> PotsAgree(InitiateRound(t).value)
    decreases Measure(t.stage), 3
  {
    NextPlayerConserves(StepLimit(RoundReset(t), t.n * 2));
  }

  lemma {:induction false} BlindsConserve(t: Table)
    requires WellFormed(t) && Blinds(t).Ok?
    ensures Total(Blinds(t).value) == Total(t)
    ensures PotsAgree(t) ==> PotsAgree(Blinds(t).value)
    decreases Measure(t.stage), 3
  {
    var t4 := Blind(t, SMALL_BLIND).value;
    BlindConserves(t, SMALL_BLIND);
    var t6 := Blind(t4, BIG_BLIND).value;
    BlindConserves(t4, BIG_BLIND);
    NextPlayerConserves(t6);
  }

  lemma {:induction false} BlindConserves(t: Table, action: Action)
    requires WellFormed(t) && Blind(t, action).Ok?
    ensures Total(Blind(t, action).value) == Total(t)
    ensures PotsAgree(t) ==> PotsAgree(Blind(t, action).value)
    decreases Measure(t.stage), 2
  {
    NextPlayerConserves(t);
    ProcessDecisionKeepsPots(NextPlayer(t).value, action);
  }

  /** A decision keeps the chips of the hand and the street pot equal to the seats' pots. */
  lemma ProcessDecisionKeepsPots(t: Table, action: Action)
    requires WellFormed(t) && ProcessDecision(t, action).Ok?
    ensures Total(ProcessDecision(t, action).value) == Total(t)
    ensures PotsAgree(t) ==> PotsAgree(ProcessDecision(t, action).value)
  {
    if action != FOLD {
      var seat := t.currentPlayer.value;
      ContributeMoves(Record(t, action, seat), seat, Contribution(t, action, seat));
    }
  }

  // ---------------------------------------------------------------------------
  // End of a hand.

  /** The seats whose flag is set, from seat i on, in seat order. */
  function IndicesFrom(flags: seq<bool>, i: nat): (r: seq<nat>)
    requires i <= |flags|
    ensures |r| == CountTrue(flags[i..])
    ensures forall k :: 0 <= k < |r| ==> i <= r[k] < |flags| && flags[r[k]]
    ensures forall j :: i <= j < |flags| && flags[j] ==> j in r
    ensures forall a, b :: 0 <= a < b < |r| ==> r[a] < r[b]
    decreases |flags| - i
  {
    if i == |flags| then []
    else
      assert flags[i..][1..] == flags[i + 1..];
      (if flags[i] then [i] else []) + IndicesFrom(flags, i + 1)
  }

  /** `[i for i, w in enumerate(potential_winners) if w]`. */
  function Indices(flags: seq<bool>): (r: seq<nat>)
    ensures |r| == CountTrue(flags)
    ensures forall k :: 0 <= k < |r| ==> r[k] < |flags| && flags[r[k]]
    ensures forall j :: 0 <= j < |flags| && flags[j] ==> j in r
    ensures forall a, b :: 0 <= a < b < |r| ==> r[a] < r[b]
  {
    assert flags[0..] == flags;
    IndicesFrom(flags, 0)
  }

  /** The hole cards of the given seats. */
  function HandsOf(t: Table, seats: seq<nat>): (r: seq<seq<string>>)
    requires WellFormed(t) && forall k :: 0 <= k < |seats| ==> seats[k] < t.n
    ensures |r| == |seats| && forall k :: 0 <= k < |seats| ==> r[k] == t.cards[seats[k]]
  {
    seq(|seats|, k requires 0 <= k < |seats| => t.cards[seats[k]])
  }

  /** Hole cards and table cards are valid cards, so is each combined hand. */
  lemma CombinedCards(hands: seq<seq<string>>, tableCards: seq<string>)
    requires HandEvaluator.AllHands(hands) && AllCards(tableCards)
    ensures HandEvaluator.AllHands(HandEvaluator.Combined(hands, tableCards))
  {
    var combined := HandEvaluator.Combined(hands, tableCards);
    forall k | 0 <= k < |combined| ensures AllCards(combined[k]) {
      var h := combined[k];
      assert h == hands[k] + tableCards;
      forall m | 0 <= m < |h| ensures IsCard(h[m]) {
        if m < |hands[k]| {
          assert h[m] == hands[k][m];
        } else {
          assert h[m] == tableCards[m - |hands[k]|];
        }
      }
    }
  }

  /** `_get_winner`: the only potential winner, or, at showdown, the potential winner
      whose cards with the table cards `get_winner` ranks best. Anywhere but at showdown
      two or more potential winners fail the assertion. */
  function Winner(t: Table): (r: Result<nat>)
    requires WellFormed(t)
    ensures r.Ok? ==> r.value < t.n && EnvCycle.PotentialWinners(t.cycle)[r.value]
  {
    var pw := EnvCycle.PotentialWinners(t.cycle);
    var idx := Indices(pw);
    if CountTrue(pw) == 1 then Ok(idx[0])
    else if t.stage != Some(SHOWDOWN) then Err(AssertionError)
    else Showdown(t, idx)
  }

  /** `get_winner` over the hole cards of the given seats and the table cards: the seat
      whose hand ranks best. */
  function Showdown(t: Table, seats: seq<nat>): (r: Result<nat>)
    requires WellFormed(t) && forall k :: 0 <= k < |seats| ==> seats[k] < t.n
    ensures r.Ok? ==> exists k :: 0 <= k < |seats| && seats[k] == r.value
  {
    var hands := HandsOf(t, seats);
    CombinedCards(hands, t.tableCards);
    var best :- HandEvaluator.GetWinnerSpec(hands, t.tableCards);
    HandEvaluator.GetWinnerIsBest(hands, t.tableCards);
    Ok(seats[best.0])
  }

  /** At showdown the winner is a seat whose combined hand ranks best. */
  lemma ShowdownMeaning(t: Table, seats: seq<nat>)
    requires WellFormed(t) && forall k :: 0 <= k < |seats| ==> seats[k] < t.n
    requires Showdown(t, seats).Ok?
    ensures var combined := HandEvaluator.Combined(HandsOf(t, seats), t.tableCards);
      && HandEvaluator.AllHands(combined)
      && exists k :: 0 <= k < |seats| && seats[k] == Showdown(t, seats).value && HandEvaluator.BestAt(combined, k)
  {
    var hands := HandsOf(t, seats);
    CombinedCards(hands, t.tableCards);
    HandEvaluator.GetWinnerIsBest(hands, t.tableCards);
    var k := HandEvaluator.GetWinnerSpec(hands, t.tableCards).value.0;
    assert Showdown(t, seats) == Ok(seats[k]);
  }

  /** The winner of a hand nobody else is left in is that seat; at showdown it is the
      potential winner with the best hand, the first in seat order when hands tie; a
      folded seat never wins. */
  lemma WinnerMeaning(t: Table)
    requires WellFormed(t) && Winner(t).Ok?
    ensures var w := Winner(t).value; var pw := EnvCycle.PotentialWinners(t.cycle);
      && pw[w]
      && (t.cycle.folder.Some? ==> !t.cycle.folder.value[w])
      && (CountTrue(pw) == 1 ==> forall j :: 0 <= j < t.n && j != w ==> !pw[j])
      && (CountTrue(pw) != 1 ==>
            var idx := Indices(pw);
            var combined := HandEvaluator.Combined(HandsOf(t, idx), t.tableCards);
            t.stage == Some(SHOWDOWN) && HandEvaluator.AllHands(combined)
            && exists k :: 0 <= k < |idx| && idx[k] == w && HandEvaluator.BestAt(combined, k))
  {
    var pw := EnvCycle.PotentialWinners(t.cycle);
    if CountTrue(pw) != 1 {
      ShowdownMeaning(t, Indices(pw));
    }
  }

  /** `np.minimum(cap, player_max_win)`: what the winner takes from each seat. */
  function Capped(s: seq<real>, cap: real): (r: seq<real>)
    ensures |r| == |s|
  {
    seq(|s|, i requires 0 <= i < |s| => MinReal(cap, s[i]))
  }

  /** `np.maximum(0, player_max_win - cap)`: what each seat gets back. */
  function Excess(s: seq<real>, cap: real): (r: seq<real>)
    ensures |r| == |s|
  {
    seq(|s|, i requires 0 <= i < |s| => MaxReal(0.0, s[i] - cap))
  }

  /** Element-wise sum. */
  function AddEach(a: seq<real>, b: seq<real>): (r: seq<real>)
    requires |a| == |b|
    ensures |r| == |a| && forall i :: 0 <= i < |a| ==> r[i] == a[i] + b[i]
  {
    seq(|a|, i requires 0 <= i < |a| => a[i] + b[i])
  }

  /** `_award_winner(w)`: the winner takes from every seat at most what it put in itself;
      when that is less than everything put in, each seat gets back what it put in beyond
      the winner's stake. */
  function Award(t: Table, w: nat): (r: Table)
    requires WellFormed(t) && w < t.n
    ensures WellFormed(r)
  {
    var cap := t.playerMaxWin[w];
    var total := SumReal(Capped(t.playerMaxWin, cap));
    var stacks := t.stacks[w := t.stacks[w] + total];
    t.(stacks := if total < SumReal(t.playerMaxWin) then AddEach(stacks, Excess(t.playerMaxWin, cap)) else stacks,
       winnerIx := Some(w))
  }

  lemma {:induction false} SumAddEach(a: seq<real>, b: seq<real>)
    requires |a| == |b|
    ensures SumReal(AddEach(a, b)) == SumReal(a) + SumReal(b)
  {
    if a != [] {
      assert AddEach(a, b)[1..] == AddEach(a[1..], b[1..]);
      SumAddEach(a[1..], b[1..]);
    }
  }

  /** What the winner takes and what comes back add up to everything put in, and nothing
      comes back negative. */
  lemma {:induction false} CappedPlusExcess(s: seq<real>, cap: real)
    ensures SumReal(Capped(s, cap)) + SumReal(Excess(s, cap)) == SumReal(s)
    ensures SumReal(Excess(s, cap)) >= 0.0
  {
    if s != [] {
      assert Capped(s, cap)[1..] == Capped(s[1..], cap);
      assert Excess(s, cap)[1..] == Excess(s[1..], cap);
      CappedPlusExcess(s[1..], cap);
    }
  }

  /** Awarding the pot hands out exactly what the seats put in: afterwards the stacks hold
      the chips of the hand. Each losing seat gets back what it put in beyond the winner's
      stake, and the winner takes up to its own stake from each seat. */
  lemma AwardMeaning(t: Table, w: nat)
    requires WellFormed(t) && w < t.n
    ensures var d := Award(t, w); var cap := t.playerMaxWin[w];
      && SumReal(d.stacks) == Total(t)
      && d.winnerIx == Some(w) && d.playerMaxWin == t.playerMaxWin
      && d.stacks[w] == t.stacks[w] + SumReal(Capped(t.playerMaxWin, cap))
      && (forall i :: 0 <= i < t.n && i != w ==> d.stacks[i] == t.stacks[i] + MaxReal(0.0, t.playerMaxWin[i] - cap))
  {
    var cap := t.playerMaxWin[w];
    var total := SumReal(Capped(t.playerMaxWin, cap));
    var stacks := t.stacks[w := t.stacks[w] + total];
    var ex := Excess(t.playerMaxWin, cap);
    CappedPlusExcess(t.playerMaxWin, cap);
    SumRealUpdate(t.stacks, w, t.stacks[w] + total);
    SumAddEach(stacks, ex);
    if total >= SumReal(t.playerMaxWin) {
      ExcessZero(t.playerMaxWin, cap);
    }
    assert ex[w] == 0.0;
  }

  /** Nothing to give back means nothing anyone put in exceeds the winner's stake. */
  lemma {:induction false} ExcessZero(s: seq<real>, cap: real)
    requires SumReal(Excess(s, cap)) == 0.0
    ensures forall i :: 0 <= i < |s| ==> Excess(s, cap)[i] == 0.0
  {
    if s != [] {
      assert Excess(s, cap)[1..] == Excess(s[1..], cap);
      CappedPlusExcess(s[1..], cap);
      ExcessZero(s[1..], cap);
      forall i | 1 <= i < |s| ensures Excess(s, cap)[i] == 0.0 {
        assert Excess(s, cap)[i] == Excess(s[1..], cap)[i - 1];
      }
    }
  }

  /** `_end_hand`: the street pot is collected, the winner found and paid. */
  function EndHand(t: Table): (r: Result<Table>)
    requires WellFormed(t)
    ensures r.Ok? ==> WellFormed(r.value)
  {
    var t1 := CleanUpPots(t);
    var w :- Winner(t1);
    Ok(Award(t1, w))
  }

  // ---------------------------------------------------------------------------
  // A new hand.

  /** The loop of `_check_game_over` from seat i on: a broke seat is recorded in
      `player_status` and deactivated; the count is of seats with chips. */
  function ScanStacks(t: Table, i: nat): (r: Result<(Table, nat)>)
    requires WellFormed(t) && i <= t.n
    ensures r.Ok? ==> WellFormed(r.value.0) && r.value.0.n == t.n
    decreases t.n - i
  {
    if i == t.n then Ok((t, 0))
    else if t.stacks[i] > 0.0 then
      var (t1, k) :- ScanStacks(t, i + 1);
      Ok((t1, k + 1))
    else
      var c :- EnvCycle.AfterDeactivatePlayer(t.cycle, i);
      ScanStacks(t.(playerStatus := t.playerStatus + [false], cycle := c), i + 1)
  }

  /** The seats from i on that have chips. */
  function WithChips(stacks: seq<real>, i: nat): (k: nat)
    requires i <= |stacks|
    decreases |stacks| - i
  {
    if i == |stacks| then 0 else (if stacks[i] > 0.0 then 1 else 0) + WithChips(stacks, i + 1)
  }

  /** `_check_game_over`: `new_hand_reset`, then the scan; fewer than two seats with chips
      end the game. */
  function CheckGameOver(t: Table): (r: Result<(Table, bool)>)
    requires WellFormed(t)
    ensures r.Ok? ==> WellFormed(r.value.0)
  {
    var (t1, alive) :- ScanStacks(t.(cycle := EnvCycle.AfterNewHandReset(t.cycle)), 0);
    if alive < 2 then Ok((t1.(done := true), true)) else Ok((t1, false))
  }

  /** What the scan from seat i leaves: exactly the seats with chips from i on able to move,
      the seats before i as they were, one False in `player_status` per broke seat, the count
      of seats with chips, and nothing else changed. */
  ghost predicate Scanned(t: Table, i: nat, d: Table, k: nat)
    requires WellFormed(t) && i <= t.n
  {
    && WellFormed(d) && d.n == t.n
    && k == WithChips(t.stacks, i)
    && |d.playerStatus| == |t.playerStatus| + (t.n - i) - k
    && (forall j :: i <= j < t.n ==> d.cycle.canMove[j] == (t.stacks[j] > 0.0))
    && (forall j :: 0 <= j < i ==> d.cycle.canMove[j] == t.cycle.canMove[j])
    && d == t.(playerStatus := d.playerStatus, cycle := d.cycle)
    && d.cycle == t.cycle.(canMove := d.cycle.canMove)
  }

  /** From a freshly reset cycle, the scan never fails its assertion and leaves what
      Scanned describes. */
  lemma {:induction false} ScanStacksMeaning(t: Table, i: nat)
    requires WellFormed(t) && i <= t.n
    requires forall j :: i <= j < t.n ==> t.cycle.canMove[j]
    ensures ScanStacks(t, i).Ok?
    ensures Scanned(t, i, ScanStacks(t, i).value.0, ScanStacks(t, i).value.1)
    decreases t.n - i
  {
    if i < t.n {
      if t.stacks[i] > 0.0 {
        ScanStacksMeaning(t, i + 1);
        var (d, k) := ScanStacks(t, i + 1).value;
        ScanKeepStep(t, i, d, k);
      } else {
        EnvCycle.DeactivateOnlyThatSeat(t.cycle, i);
        var c := EnvCycle.AfterDeactivatePlayer(t.cycle, i).value;
        var u := t.(playerStatus := t.playerStatus + [false], cycle := c);
        ScanStacksMeaning(u, i + 1);
        var (d, k) := ScanStacks(u, i + 1).value;
        ScanDropStep(t, i, c, d, k);
      }
    }
  }

  /** A seat with chips is left able to move and counted. */
  lemma ScanKeepStep(t: Table, i: nat, d: Table, k: nat)
    requires WellFormed(t) && i < t.n && t.stacks[i] > 0.0 && t.cycle.canMove[i]
    requires Scanned(t, i + 1, d, k)
    ensures Scanned(t, i, d, k + 1)
  {
  }

  /** A broke seat is deactivated and recorded. */
  lemma ScanDropStep(t: Table, i: nat, c: EnvCycle.CycleState, d: Table, k: nat)
    requires WellFormed(t) && i < t.n && !(t.stacks[i] > 0.0) && t.cycle.canMove[i]
    requires EnvCycle.AfterDeactivatePlayer(t.cycle, i) == Ok(c)
    requires Scanned(t.(playerStatus := t.playerStatus + [false], cycle := c), i + 1, d, k)
    ensures Scanned(t, i, d, k)
  {
    EnvCycle.DeactivateOnlyThatSeat(t.cycle, i);
  }

  /** The game is over exactly when fewer than two seats have chips; either way the seats
      that can move in the new hand are those with chips. */
  lemma CheckGameOverMeaning(t: Table)
    requires WellFormed(t)
    ensures CheckGameOver(t).Ok?
    ensures var (d, over) := CheckGameOver(t).value;
      && (over <==> WithChips(t.stacks, 0) < 2)
      && d.done == (over || t.done)
      && d.stacks == t.stacks && d.playerMaxWin == t.playerMaxWin
      && (forall j :: 0 <= j < t.n ==> d.cycle.canMove[j] == (t.stacks[j] > 0.0))
  {
    var u := t.(cycle := EnvCycle.AfterNewHandReset(t.cycle));
    EnvCycle.NewHandResetMeaning(t.cycle);
    ScanStacksMeaning(u, 0);
  }

  /** `_next_dealer`: the cycle's next dealer seat. */
  function NextDealer(t: Table): (r: Result<Table>)
    requires WellFormed(t)
    ensures r.Ok? ==> WellFormed(r.value) && r.value == t.(cycle := r.value.cycle, dealerPos := r.value.dealerPos)
  {
    var (c, seat) :- EnvCycle.AfterNextDealer(t.cycle);
    Ok(t.(cycle := c, dealerPos := seat))
  }

  /** The state `_start_new_hand` sets up before the dealer moves: no table cards, a fresh
      deck, preflop, empty pots and no hole cards. */
  function FreshHand(t: Table): (r: Table)
    requires WellFormed(t)
    ensures WellFormed(r)
  {
    CardDeckMeaning();
    var t1 := t.(tableCards := [], deck := CardDeck(), stage := Some(PREFLOP), cards := Repeat([], t.n));
    t1.(communityPot := 0.0, currentRoundPot := 0.0, playerPots := Repeat(0.0, t.n),
        playerMaxWin := Repeat(0.0, t.n), lastPlayerPot := 0.0)
  }

  /** `_start_new_hand`: unless the game is over, a fresh hand, the next dealer, the deal
      and the preflop round. */
  function StartNewHand(t: Table): (r: Result<Table>)
    requires WellFormed(t)
    ensures r.Ok? ==> WellFormed(r.value)
  {
    var (t1, over) :- CheckGameOver(t);
    if over then Ok(t1) else DealHand(t1)
  }

  /** The part of `_start_new_hand` after the game-over check. */
  function DealHand(t: Table): (r: Result<Table>)
    requires WellFormed(t)
    ensures r.Ok? ==> WellFormed(r.value)
  {
    var t2 :- NextDealer(FreshHand(t));
    var t3 :- Distribute(t2);
    InitiateRound(t3)
  }

  /** A new hand starts with nothing in the pots, so its chips are the stacks; a game that
      is over keeps the stacks as they were. */
  lemma StartNewHandConserves(t: Table)
    requires WellFormed(t) && StartNewHand(t).Ok?
    ensures var d := StartNewHand(t).value;
      && (d.done <==> t.done || WithChips(t.stacks, 0) < 2)
      && (WithChips(t.stacks, 0) < 2 ==> d.stacks == t.stacks)
      && (WithChips(t.stacks, 0) >= 2 ==> Total(d) == SumReal(t.stacks) && PotsAgree(d) && !d.done == !t.done)
  {
    CheckGameOverMeaning(t);
    var (t1, over) := CheckGameOver(t).value;
    if !over {
      var f := FreshHand(t1);
      SumRealRepeatZero(t.n);
      assert Total(f) == SumReal(t.stacks) && PotsAgree(f);
      var t2 := NextDealer(f).value;
      var t3 := Distribute(t2).value;
      InitiateRoundConserves(t3);
    }
  }

  // ---------------------------------------------------------------------------
  // The environment.

  /** `_get_legal_moves` stores what it finds in `action_space`. */
  function WithLegalMoves(t: Table): (r: Result<Table>)
    requires WellFormed(t)
    ensures r.Ok? ==> WellFormed(r.value) && r.value == t.(actionSpace := r.value.actionSpace)
  {
    var moves :- LegalMoves(t);
    Ok(t.(actionSpace := moves))
  }

  /** `_get_environment`, as far as it touches the table: legal moves unless the game is
      over, the stage read (None raises AttributeError), the winner as current player when
      the hand left none, and the legal moves again. */
  function GetEnvironment(t: Table): (r: Result<Table>)
    requires WellFormed(t)
    ensures r.Ok? ==> WellFormed(r.value)
  {
    var t1 :- if !t.done then WithLegalMoves(t) else Ok(t);
    if t1.stage.None? then Err(AttributeError)
    else
      var t2 :- if t1.currentPlayer.Some? then Ok(t1)
                else if t1.winnerIx.None? then Err(TypeError)
                else Ok(t1.(currentPlayer := t1.winnerIx));
      WithLegalMoves(t2)
  }

  /** `_get_environment` raises AttributeError before the first hand, and TypeError when
      the hand left neither a current player nor a winner (once the legal moves are
      computed, or the game is done); otherwise the current player is kept, or
      becomes the winner, and `action_space` holds that player's legal moves. Nothing else
      of the table changes. */
  lemma GetEnvironmentMeaning(t: Table)
    requires WellFormed(t)
    ensures t.stage.None? || (t.currentPlayer.None? && t.winnerIx.None?) ==> GetEnvironment(t).Err?
    ensures (t.done || LegalMoves(t).Ok?) && t.stage.None? ==> GetEnvironment(t) == Err(AttributeError)
    ensures (t.done || LegalMoves(t).Ok?) && t.stage.Some? && t.currentPlayer.None? && t.winnerIx.None?
      ==> GetEnvironment(t) == Err(TypeError)
    ensures var r := GetEnvironment(t);
      r.Ok? ==>
        && r.value.currentPlayer.Some?
        && r.value.currentPlayer == (if t.currentPlayer.Some? then t.currentPlayer else t.winnerIx)
        && LegalMoves(r.value) == Ok(r.value.actionSpace)
        && r.value == t.(actionSpace := r.value.actionSpace, currentPlayer := r.value.currentPlayer)
  {
    if GetEnvironment(t).Ok? {
      var t1 := if !t.done then WithLegalMoves(t).value else t;
      assert t1 == t.(actionSpace := t1.actionSpace);
      var t2 := if t1.currentPlayer.Some? then t1 else t1.(currentPlayer := t1.winnerIx);
      assert t2 == t.(actionSpace := t1.actionSpace, currentPlayer := t2.currentPlayer);
      var r := WithLegalMoves(t2).value;
      assert GetEnvironment(t) == Ok(r);
      LegalMovesIgnoresActions(t2, r.actionSpace);
    }
  }

  /** The legal moves do not depend on the ones stored before. */
  lemma LegalMovesIgnoresActions(t: Table, moves: seq<Action>)
    requires WellFormed(t)
    ensures LegalMoves(t.(actionSpace := moves)) == LegalMoves(t)
  {
  }

  /** `step(action)`: the decision, the next player, the end of the hand and a new one
      when the stage says so, `update_alive`, and the new environment. Before the first hand
      the observation read at its head raises AttributeError. */
  function Step(t: Table, action: Action): (r: Result<Table>)
    requires WellFormed(t)
    ensures r.Ok? ==> WellFormed(r.value)
  {
    if t.stage.None? then Err(AttributeError)
    else
      var t2 :- Play(t, action);
      Settle(t2)
  }

  /** The decision and the next player. */
  function Play(t: Table, action: Action): (r: Result<Table>)
    requires WellFormed(t)
    ensures r.Ok? ==> WellFormed(r.value)
  {
    var t1 :- ProcessDecision(t, action);
    NextPlayer(t1)
  }

  /** What `step` does after the next player: a new hand when this one is over,
      `update_alive`, and the new environment. */
  function Settle(t: Table): (r: Result<Table>)
    requires WellFormed(t)
    ensures r.Ok? ==> WellFormed(r.value)
  {
    var t3 :- if t.stage == Some(END_HIDDEN) || t.stage == Some(SHOWDOWN) then NewHand(t) else Ok(t);
    GetEnvironment(t3.(cycle := EnvCycle.AfterUpdateAlive(t3.cycle)))
  }

  /** `_end_hand` then `_start_new_hand`. */
  function NewHand(t: Table): (r: Result<Table>)
    requires WellFormed(t)
    ensures r.Ok? ==> WellFormed(r.value)
  {
    var t1 :- EndHand(t);
    StartNewHand(t1)
  }

  /** A whole `step` keeps the chips of the hand: while the game goes on, through the
      decision, the rest of the street, the award and the blinds of the next hand, the
      stacks plus the stakes stay what they were and the street pot matches the seats'
      pots; a step that ends the game leaves every chip in the stacks, with fewer than two
      seats holding any. */
  lemma StepConserves(t: Table, action: Action)
    requires WellFormed(t) && PotsAgree(t) && Step(t, action).Ok?
    ensures var d := Step(t, action).value;
      && d.n == t.n
      && (!d.done ==> Total(d) == Total(t) && PotsAgree(d))
      && (d.done && !t.done ==> SumReal(d.stacks) == Total(t) && WithChips(d.stacks, 0) < 2)
  {
    var t1 := ProcessDecision(t, action).value;
    ProcessDecisionKeepsPots(t, action);
    var p := NextPlayer(t1).value;
    NextPlayerConserves(t1);
    assert Play(t, action) == Ok(p);
    SettleConserves(p);
  }

  /** What follows the next player keeps the chips of the hand, or leaves them all in the
      stacks when the game ends. */
  lemma SettleConserves(p: Table)
    requires WellFormed(p) && PotsAgree(p) && Settle(p).Ok?
    ensures var d := Settle(p).value;
      && d.n == p.n
      && (!d.done ==> Total(d) == Total(p) && PotsAgree(d))
      && (d.done && !p.done ==> SumReal(d.stacks) == Total(p) && WithChips(d.stacks, 0) < 2)
  {
    if p.stage == Some(END_HIDDEN) || p.stage == Some(SHOWDOWN) {
      HandOverConserves(p);
    } else {
      AliveKeepsChips(p);
    }
  }

  /** A hand that is over is awarded and the next one dealt before the environment is
      read. */
  lemma HandOverConserves(p: Table)
    requires WellFormed(p) && Settle(p).Ok?
    requires p.stage == Some(END_HIDDEN) || p.stage == Some(SHOWDOWN)
    ensures var d := Settle(p).value;
      && d.n == p.n
      && (!d.done ==> Total(d) == Total(p) && PotsAgree(d))
      && (d.done && !p.done ==> SumReal(d.stacks) == Total(p) && WithChips(d.stacks, 0) < 2)
  {
    SettleAfterHand(p);
    NewHandConserves(p);
    AliveKeepsChips(NewHand(p).value);
  }

  /** A hand that is over: `step` goes on from the next hand. */
  lemma SettleAfterHand(p: Table)
    requires WellFormed(p) && Settle(p).Ok?
    requires p.stage == Some(END_HIDDEN) || p.stage == Some(SHOWDOWN)
    ensures NewHand(p).Ok?
    ensures var s := NewHand(p).value; Settle(p) == GetEnvironment(s.(cycle := EnvCycle.AfterUpdateAlive(s.cycle)))
  {
  }

  /** `update_alive` and `_get_environment` move no chips. */
  lemma AliveKeepsChips(s: Table)
    requires WellFormed(s)
    requires GetEnvironment(s.(cycle := EnvCycle.AfterUpdateAlive(s.cycle))).Ok?
    ensures var r := GetEnvironment(s.(cycle := EnvCycle.AfterUpdateAlive(s.cycle))).value;
      && r.n == s.n && r.done == s.done && r.stacks == s.stacks && r.playerMaxWin == s.playerMaxWin
      && r.playerPots == s.playerPots && r.currentRoundPot == s.currentRoundPot
  {
    GetEnvironmentKeepsChips(s.(cycle := EnvCycle.AfterUpdateAlive(s.cycle)));
  }

  /** `_get_environment` moves no chips, and leaves a current player with its legal moves. */
  lemma GetEnvironmentKeepsChips(t: Table)
    requires WellFormed(t) && GetEnvironment(t).Ok?
    ensures var r := GetEnvironment(t).value;
      && r.n == t.n && r.done == t.done && r.stacks == t.stacks && r.playerMaxWin == t.playerMaxWin
      && r.playerPots == t.playerPots && r.currentRoundPot == t.currentRoundPot
      && r.currentPlayer.Some? && LegalMoves(r) == Ok(r.actionSpace)
  {
    GetEnvironmentMeaning(t);
  }

  /** The award and the next hand keep the chips of the hand; when no second seat has
      chips left the game ends with every chip in the stacks. */
  lemma NewHandConserves(p: Table)
    requires WellFormed(p) && NewHand(p).Ok?
    ensures var s := NewHand(p).value;
      && s.n == p.n
      && (!s.done ==> Total(s) == Total(p) && PotsAgree(s))
      && (s.done && !p.done ==> SumReal(s.stacks) == Total(p) && WithChips(s.stacks, 0) < 2)
  {
    EndHandPays(p);
    StartNewHandConserves(EndHand(p).value);
  }

  /** The end of a hand leaves every chip of the hand in the stacks. */
  lemma EndHandPays(p: Table)
    requires WellFormed(p) && EndHand(p).Ok?
    ensures var e := EndHand(p).value; SumReal(e.stacks) == Total(p) && e.done == p.done && e.n == p.n
  {
    var c := CleanUpPots(p);
    AwardMeaning(c, Winner(c).value);
  }

  /** `reset()`: every stack back to the initial stack, dealer position 0, a new cycle
      with dealer -1 and at most n steps after a raiser, a new hand and the environment. */
  function Reset(t: Table): (r: Result<Table>)
    requires WellFormed(t)
    ensures r.Ok? ==> WellFormed(r.value)
  {
    var t2 :- StartNewHand(Restarted(t));
    GetEnvironment(t2)
  }

  /** The head of `reset()`: `done` cleared, every stack back to the initial stack, dealer
      position 0 and the new cycle. */
  function Restarted(t: Table): (r: Table)
    requires WellFormed(t)
    ensures WellFormed(r)
  {
    t.(done := false, stacks := Repeat(t.initialStacks, t.n), dealerPos := 0,
       cycle := EnvCycle.Initial(t.n, 0, -1, None, None, Some(t.n)))
  }

  /** After `reset()` every seat holds the initial stack; the game is over at once exactly
      when fewer than two seats have chips, and otherwise the first hand holds the sum of n
      initial stacks (n times the stack, by `SumRealRepeat`), the street pot matches the seats' pots, and the current player has
      its legal moves. */
  lemma ResetMeaning(t: Table)
    requires WellFormed(t) && Reset(t).Ok?
    ensures var r := Reset(t).value;
      && r.n == t.n
      && (r.done <==> t.n < 2 || t.initialStacks <= 0.0)
      && (r.done ==> r.stacks == Repeat(t.initialStacks, t.n))
      && (!r.done ==> Total(r) == SumReal(Repeat(t.initialStacks, t.n)) && PotsAgree(r))
      && r.currentPlayer.Some? && LegalMoves(r) == Ok(r.actionSpace)
  {
    assert StartNewHand(Restarted(t)).Ok?;
    var s := StartNewHand(Restarted(t)).value;
    assert Reset(t) == GetEnvironment(s);
    FirstHand(t);
    GetEnvironmentKeepsChips(s);
  }

  /** The first hand after `reset()`, before the environment is read. */
  lemma FirstHand(t: Table)
    requires WellFormed(t) && StartNewHand(Restarted(t)).Ok?
    ensures var s := StartNewHand(Restarted(t)).value;
      && s.n == t.n
      && (s.done <==> t.n < 2 || t.initialStacks <= 0.0)
      && (s.done ==> s.stacks == Repeat(t.initialStacks, t.n))
      && (!s.done ==> Total(s) == SumReal(Repeat(t.initialStacks, t.n)) && PotsAgree(s))
  {
    var t1 := Restarted(t);
    assert t1.stacks == Repeat(t.initialStacks, t.n) && !t1.done;
    WithChipsRepeat(t.initialStacks, t.n, 0);
    StartNewHandConserves(t1);
  }

  /** Seats that all hold the same stack: all of them have chips, or none. */
  lemma {:induction false} WithChipsRepeat(x: real, n: nat, i: nat)
    requires i <= n
    ensures WithChips(Repeat(x, n), i) == if x > 0.0 then n - i else 0
    decreases n - i
  {
    if i < n {
      WithChipsRepeat(x, n, i + 1);
    }
  }

  /** The table after `HoldemTable(initial_stacks, small_blind, big_blind)` and n calls of
      `add_player`. The attributes the source leaves at None until the first hand hold
      neutral values here. */
  function NewTable(n: nat, initialStacks: real, smallBlind: real, bigBlind: real): (t: Table)
    ensures WellFormed(t)
  {
    Table(n, initialStacks, smallBlind, bigBlind, Repeat(initialStacks, n), Repeat([], n), [], [], [], 0,
      Repeat(true, n), None, None, 0.0, Repeat(0.0, n), None, None, [], [], 0.0, None, 0.0, 9.0,
      Repeat(0.0, n), [], false, EnvCycle.Initial(n, 0, 0, None, None, None))
  }
}
