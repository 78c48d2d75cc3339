/** `HoldemTable` of gym_env/env.py as a class whose methods update its attributes in place,
    each proved against the function of module Env that specifies it. The players' `stack`
    and `cards` attributes are the per-seat sequences `stacks` and `cards`; the table's
    `player_cycle` is a `PlayerCycle` object of module EnvCycle. */
module EnvTable {
  import opened Common
  import opened Cards
  import EnvCycle
  import HandEvaluator
  import Montecarlo
  import Env

  class HoldemTable {
    var n: nat
    var initialStacks: real
    var smallBlind: real
    var bigBlind: real
    var stacks: seq<real>
    var cards: seq<seq<string>>
    var tableCards: seq<string>
    var deck: seq<string>
    var draws: seq<int>
    var dealerPos: int
    var playerStatus: seq<bool>
    var currentPlayer: Option<nat>
    var stage: Option<Env.Stage>
    var lastPlayerPot: real
    var playerMaxWin: seq<real>
    var lastCaller: Option<nat>
    var lastRaiser: Option<nat>
    var raisers: seq<nat>
    var callers: seq<nat>
    var minCall: real
    var winnerIx: Option<nat>
    var communityPot: real
    var currentRoundPot: real
    var playerPots: seq<real>
    var actionSpace: seq<Env.Action>
    var done: bool
    var cycle: EnvCycle.PlayerCycle

    /** The attributes as a value of the specification. */
    function State(): Env.Table
      reads this, cycle
    {
      Env.Table(n, initialStacks, smallBlind, bigBlind, stacks, cards, tableCards, deck, draws,
        dealerPos, playerStatus, currentPlayer, stage, lastPlayerPot, playerMaxWin, lastCaller,
        lastRaiser, raisers, callers, minCall, winnerIx, communityPot, currentRoundPot,
        playerPots, actionSpace, done, cycle.State())
    }

    predicate Valid()
      reads this, cycle
    {
      Env.WellFormed(State())
    }

    /** `HoldemTable(initial_stacks, small_blind, big_blind)` followed by n `add_player`
        calls. */
    constructor (n: nat, initialStacks: real, smallBlind: real, bigBlind: real)
      ensures Valid() && State() == Env.NewTable(n, initialStacks, smallBlind, bigBlind)
    {
      this.n := n;
      this.initialStacks := initialStacks;
      this.smallBlind := smallBlind;
      this.bigBlind := bigBlind;
      stacks := Repeat(initialStacks, n);
      cards := Repeat([], n);
      tableCards := [];
      deck := [];
      draws := [];
      dealerPos := 0;
      playerStatus := Repeat(true, n);
      currentPlayer := None;
      stage := None;
      lastPlayerPot := 0.0;
      playerMaxWin := Repeat(0.0, n);
      lastCaller := None;
      lastRaiser := None;
      raisers := [];
      callers := [];
      minCall := 0.0;
      winnerIx := None;
      communityPot := 0.0;
      currentRoundPot := 9.0;
      playerPots := Repeat(0.0, n);
      actionSpace := [];
      done := false;
      cycle := new EnvCycle.PlayerCycle(n, 0, 0, None, None, None);
    }

    // -------------------------------------------------------------------------
    // Cards.

    /** `_create_card_deck`. */
    method CreateCardDeck()
      modifies this`deck
      ensures deck == Env.CardDeck()
    {
      deck := NewDeck();
    }

    /** `_distribute_cards_to_table(amount_of_cards)`: the cards, deck and draws
        `Env.DealToTable` leaves, or the exception it names. */
    method DistributeCardsToTable(amount: nat) returns (st: Status)
      requires Valid()
      modifies this`tableCards, this`deck, this`draws
      ensures Agrees(st, Env.DealToTable(old(State()), amount), State())
    {
      var dealt := DealCommunity(State(), amount);
      if dealt.Err? {
        return Raised(dealt.error);
      }
      LayTable(dealt.value.0, dealt.value.1);
      SetDraws(dealt.value.2);
      return Done;
    }

    /** `_distribute_cards`: the hole cards, deck and draws `Env.Distribute` leaves, or the
        exception it names. */
    method DistributeCards() returns (st: Status)
      requires Valid()
      modifies this`cards, this`deck, this`draws
      ensures Agrees(st, Env.Distribute(old(State())), State())
    {
      var dealt := DealHoleCards(stacks, Env.Shoe(cards, deck, draws));
      if dealt.Err? {
        return Raised(dealt.error);
      }
      LayHands(dealt.value.cards, dealt.value.deck);
      SetDraws(dealt.value.draws);
      return Done;
    }

    /** The table cards and the deck after a deal. */
    method LayTable(tableCards: seq<string>, deck: seq<string>)
      modifies this`tableCards, this`deck
      ensures State() == old(State()).(tableCards := tableCards, deck := deck)
    {
      this.tableCards, this.deck := tableCards, deck;
    }

    /** The hole cards and the deck after a deal. */
    method LayHands(cards: seq<seq<string>>, deck: seq<string>)
      modifies this`cards, this`deck
      ensures State() == old(State()).(cards := cards, deck := deck)
    {
      this.cards, this.deck := cards, deck;
    }

    /** The draws left after a deal. */
    method SetDraws(draws: seq<int>)
      modifies this`draws
      ensures State() == old(State()).(draws := draws)
    {
      this.draws := draws;
    }

    // -------------------------------------------------------------------------
    // Decisions.

    /** The first part of `_process_decision` for a seat: the callers, the raisers, a
        check or the blinds' raiser and `mark_bb`, as `Env.Record` states them. */
    method RecordDecision(action: Env.Action, seat: nat)
      requires Valid() && seat < n
      modifies this`callers, this`lastCaller, this`raisers, this`lastRaiser, cycle
      ensures State() == Env.Record(old(State()), action, seat)
    {
      match action {
        case CALL => RecordCaller(seat);
        case CHECK => RecordChecker();
        case SMALL_BLIND => RecordBlind(seat);
        case BIG_BLIND => RecordBlind(seat); RecordBigBlind();
        case FOLD =>
        case _ => RecordRaiser(seat);
      }
    }

    /** CALL: the seat joins the callers and is the last caller. */
    method RecordCaller(seat: nat)
      modifies this`callers, this`lastCaller
      ensures State() == old(State()).(callers := old(callers) + [seat], lastCaller := Some(seat))
    {
      callers, lastCaller := callers + [seat], Some(seat);
    }

    /** CHECK: `mark_checker`. */
    method RecordChecker()
      requires cycle.Valid()
      modifies cycle
      ensures State() == old(State()).(cycle := EnvCycle.AfterMarkChecker(old(cycle.State())))
    {
      cycle.MarkChecker();
    }

    /** A blind: the seat is the last raiser. */
    method RecordBlind(seat: nat)
      modifies this`lastRaiser
      ensures State() == old(State()).(lastRaiser := Some(seat))
    {
      lastRaiser := Some(seat);
    }

    /** The big blind: `mark_bb`. */
    method RecordBigBlind()
      requires cycle.Valid()
      modifies cycle
      ensures State() == old(State()).(cycle := EnvCycle.AfterMarkBb(old(cycle.State())))
    {
      cycle.MarkBb();
    }

    /** A raise: the seat joins the raisers. */
    method RecordRaiser(seat: nat)
      modifies this`raisers
      ensures State() == old(State()).(raisers := old(raisers) + [seat])
    {
      raisers := raisers + [seat];
    }

    /** The chip moves of `_process_decision` for a contribution c: the state
        `Env.Contribute` leaves, or the exception it names. */
    method Contribute(seat: nat, c: real) returns (st: Status)
      requires Valid() && seat < n
      modifies this`stacks, this`playerPots, this`currentRoundPot, this`lastPlayerPot,
        this`minCall, this`playerMaxWin, this`lastRaiser, cycle
      ensures Agrees(st, Env.Contribute(old(State()), seat, c), State())
    {
      PayIn(seat, c);
      st := AllInCheck(seat, c);
      if st.Raised? {
        return;
      }
      Ledger(seat, c);
    }

    /** A contribution that empties the stack marks the seat all in. */
    method AllInCheck(seat: nat, c: real) returns (st: Status)
      requires Valid() && seat < n
      modifies cycle
      ensures Agrees(st, Env.AllInMark(old(State()), seat, c), State())
    {
      if stacks[seat] == 0.0 && c > 0.0 {
        st := MarkAllIn();
      } else {
        st := Done;
      }
    }

    /** `mark_raiser` for a contribution above `min_call`, then the chips move from the
        stack into the seat's pot and the street pot: the state `Env.Paid` leaves. */
    method PayIn(seat: nat, c: real)
      requires Valid() && seat < n
      modifies this`stacks, this`playerPots, this`currentRoundPot, this`lastPlayerPot, this`lastRaiser, cycle
      ensures State() == Env.Paid(old(State()), seat, c)
    {
      if c > minCall {
        MarkRaiser(seat);
      }
      Stake(seat, c);
      RoundPot(seat, c);
    }

    /** A contribution above `min_call`: `mark_raiser` and the seat as last raiser. */
    method MarkRaiser(seat: nat)
      requires cycle.Valid()
      modifies this`lastRaiser, cycle
      ensures State() == old(State()).(lastRaiser := Some(seat), cycle := EnvCycle.AfterMarkRaiser(old(State()).cycle))
    {
      cycle.MarkRaiser();
      lastRaiser := Some(seat);
    }

    /** The contribution leaves the stack for the seat's pot. */
    method Stake(seat: nat, c: real)
      requires seat < |stacks| && seat < |playerPots|
      modifies this`stacks, this`playerPots
      ensures var t := old(State());
        State() == t.(stacks := t.stacks[seat := t.stacks[seat] - c], playerPots := t.playerPots[seat := t.playerPots[seat] + c])
    {
      stacks, playerPots := stacks[seat := stacks[seat] - c], playerPots[seat := playerPots[seat] + c];
    }

    /** The street pot grows by the contribution, and the last pot is the seat's pot. */
    method RoundPot(seat: nat, c: real)
      requires seat < |playerPots|
      modifies this`currentRoundPot, this`lastPlayerPot
      ensures var t := old(State());
        State() == t.(currentRoundPot := t.currentRoundPot + c, lastPlayerPot := t.playerPots[seat])
    {
      currentRoundPot, lastPlayerPot := currentRoundPot + c, playerPots[seat];
    }

    /** `mark_out_of_cash_but_contributed` on the cycle. */
    method MarkAllIn() returns (st: Status)
      requires Valid()
      modifies cycle
      ensures Agrees(st, Env.MarkOutOfCash(old(State())), State())
    {
      st := cycle.MarkOutOfCashButContributed();
    }

    /** The end of the chip moves: `min_call` rises to c and the seat's side-pot ledger
        `player_max_win` grows by c. */
    method Ledger(seat: nat, c: real)
      requires seat < |playerMaxWin|
      modifies this`minCall, this`playerMaxWin
      ensures var t := old(State());
        State() == t.(minCall := MaxReal(t.minCall, c), playerMaxWin := t.playerMaxWin[seat := t.playerMaxWin[seat] + c])
    {
      minCall, playerMaxWin := MaxReal(minCall, c), playerMaxWin[seat := playerMaxWin[seat] + c];
    }

    /** `_process_decision(action)`: the state `Env.ProcessDecision` leaves, or the
        exception it names. */
    method ProcessDecision(action: Env.Action) returns (st: Status)
      requires Valid()
      modifies this, cycle
      ensures cycle == old(cycle)
      ensures Agrees(st, Env.ProcessDecision(old(State()), action), State())
    {
      if action != Env.SMALL_BLIND && action != Env.BIG_BLIND && action !in actionSpace {
        return Raised(AssertionError);
      }
      if action == Env.FOLD {
        st := Fold();
      } else if currentPlayer.None? {
        st := Raised(AttributeError);
      } else {
        st := Decide(action, currentPlayer.value);
      }
    }

    /** FOLD: `deactivate_current` and `mark_folder` on the cycle, then the log line that
        reads `current_player.seat`. */
    method Fold() returns (st: Status)
      requires Valid()
      modifies cycle
      ensures Agrees(st, Env.Fold(old(State())), State())
    {
      st := cycle.DeactivateCurrent();
      if st.Raised? {
        return;
      }
      st := cycle.MarkFolder();
      if st.Raised? {
        return;
      }
      if currentPlayer.None? {
        return Raised(AttributeError);
      }
    }

    /** Any other decision of the current seat: its contribution, the bookkeeping, then the
        chip moves. */
    method Decide(action: Env.Action, seat: nat) returns (st: Status)
      requires Valid() && seat < n && action != Env.FOLD
      modifies this, cycle
      ensures cycle == old(cycle)
      ensures var t := old(State());
        Agrees(st, Env.Contribute(Env.Record(t, action, seat), seat, Env.Contribution(t, action, seat)), State())
    {
      var c := Env.Contribution(State(), action, seat);
      RecordDecision(action, seat);
      st := Contribute(seat, c);
    }

    // -------------------------------------------------------------------------
    // Streets.

    /** `_close_round`: the seats' pots go into the community pot. */
    method CloseRound()
      requires Valid()
      modifies this`communityPot, this`playerPots
      ensures State() == Env.CloseRound(old(State()))
    {
      communityPot, playerPots := communityPot + SumReal(playerPots), Repeat(0.0, n);
    }

    /** `_clean_up_pots`: the street pot goes into the community pot. */
    method CleanUpPots()
      requires Valid()
      modifies this`communityPot, this`currentRoundPot, this`playerPots
      ensures State() == Env.CleanUpPots(old(State()))
    {
      CollectRoundPot();
      EmptySeatPots();
    }

    /** The street pot moves into the community pot. */
    method CollectRoundPot()
      modifies this`communityPot, this`currentRoundPot
      ensures State() == old(State()).(communityPot := old(communityPot + currentRoundPot), currentRoundPot := 0.0)
    {
      communityPot, currentRoundPot := communityPot + currentRoundPot, 0.0;
    }

    /** `player_pots = [0] * len(players)`. */
    method EmptySeatPots()
      modifies this`playerPots
      ensures State() == old(State()).(playerPots := Repeat(0.0, n))
    {
      playerPots := Repeat(0.0, n);
    }

    /** `stage = stage`. */
    method SetStage(stage: Option<Env.Stage>)
      modifies this`stage
      ensures State() == old(State()).(stage := stage)
    {
      this.stage := stage;
    }

    /** The head of `_end_round`: the street closes and the stage moves on. */
    method CloseStreet()
      requires Valid()
      modifies this`communityPot, this`playerPots, this`stage
      ensures State() == Env.CloseRound(old(State())).(stage := Env.NextStage(old(stage)))
    {
      var next := Env.NextStage(stage);
      CloseRound();
      SetStage(next);
    }

    /** `_end_round`: the state `Env.EndRound` leaves, or the exception it names. */
    method EndRound() returns (st: Status)
      requires Valid()
      modifies this, cycle
      ensures cycle == old(cycle)
      ensures Agrees(st, Env.EndRound(old(State())), State())
    {
      var amount := Env.CardsFor(stage);
      CloseStreet();
      st := DistributeCardsToTable(amount);
      if st.Raised? {
        return;
      }
      CleanUpPots();
    }

    /** The resets at the head of `_initiate_round`, with the cycle's `new_round_reset`. */
    method RoundReset()
      requires Valid()
      modifies this`lastCaller, this`lastRaiser, this`raisers, this`callers, this`minCall, cycle
      ensures State() == Env.RoundReset(old(State()))
    {
      ClearLast();
      raisers, callers := [], [];
      ClearMinCall();
    }

    /** `last_caller = None`, `last_raiser = None`. */
    method ClearLast()
      modifies this`lastCaller, this`lastRaiser
      ensures State() == old(State()).(lastCaller := None, lastRaiser := None)
    {
      lastCaller, lastRaiser := None, None;
    }

    /** `min_call = 0` and the cycle's `new_round_reset`. */
    method ClearMinCall()
      requires cycle.Valid()
      modifies this`minCall, cycle
      ensures State() == old(State()).(minCall := 0.0, cycle := EnvCycle.AfterNewRoundReset(old(cycle.State())))
    {
      minCall := 0.0;
      cycle.NewRoundReset();
    }

    /** `player_cycle.max_steps_total = limit`. */
    method StepLimit(limit: int)
      requires cycle.Valid()
      modifies cycle
      ensures State() == old(State()).(cycle := old(cycle.State()).(maxStepsTotal := Some(limit)))
    {
      cycle.maxStepsTotal := Some(limit);
    }

    /** `current_player = player_cycle.next_player()`. */
    method AdvancePlayer() returns (st: Status)
      requires cycle.Valid()
      modifies this`currentPlayer, cycle
      ensures match EnvCycle.AfterNextPlayer(old(cycle.State()), 1)
        case Err(e) => st == Raised(e)
        case Ok(p) => st == Done && State() == old(State()).(cycle := p.0, currentPlayer := p.1)
    {
      var seat := cycle.NextPlayer(1);
      if seat.Err? {
        return Raised(seat.error);
      }
      currentPlayer := seat.value;
      return Done;
    }

    /** `_next_player`: the state `Env.NextPlayer` leaves, or the exception it names. */
    method NextPlayer() returns (st: Status)
      requires Valid()
      modifies this, cycle
      ensures cycle == old(cycle)
      ensures Agrees(st, Env.NextPlayer(old(State())), State())
      decreases Env.Measure(stage), 1
    {
      ghost var c := cycle.State();
      st := AdvancePlayer();
      if st.Raised? || currentPlayer.Some? {
        return;
      }
      Env.CycleStepWellFormed(c);
      if CountTrue(cycle.alive) < 2 {
        SetStage(Some(Env.END_HIDDEN));
        return;
      }
      st := EndRound();
      if st.Raised? {
        return;
      }
      st := InitiateRound();
    }

    /** `_initiate_round`: the state `Env.InitiateRound` leaves, or the exception it
        names. */
    method InitiateRound() returns (st: Status)
      requires Valid()
      modifies this, cycle
      ensures cycle == old(cycle)
      ensures Agrees(st, Env.InitiateRound(old(State())), State())
      decreases Env.Measure(stage), if Env.Measure(stage) > 0 then 5 else 0
    {
      if stage == Some(Env.PREFLOP) {
        st := Preflop();
      } else if stage == Some(Env.FLOP) || stage == Some(Env.TURN) || stage == Some(Env.RIVER) {
        RoundReset();
        StepLimit(n * 2);
        st := NextPlayer();
      } else if stage == Some(Env.SHOWDOWN) {
        RoundReset();
        st := Done;
      } else {
        st := Raised(RuntimeError);
      }
    }

    /** Preflop, `_initiate_round` allows `2 * n + 2` steps and posts the blinds. */
    method Preflop() returns (st: Status)
      requires Valid()
      modifies this, cycle
      ensures cycle == old(cycle)
      ensures Agrees(st, Env.Preflop(old(State())), State())
      decreases Env.Measure(stage), 4
    {
      RoundReset();
      StepLimit(n * 2 + 2);
      st := Blinds();
    }

    /** The blinds of the preflop round, then the first seat to act. */
    method Blinds() returns (st: Status)
      requires Valid()
      modifies this, cycle
      ensures cycle == old(cycle)
      ensures Agrees(st, Env.Blinds(old(State())), State())
      decreases Env.Measure(stage), 3
    {
      st := Blind(Env.SMALL_BLIND);
      if st.Raised? {
        return;
      }
      st := Blind(Env.BIG_BLIND);
      if st.Raised? {
        return;
      }
      st := NextPlayer();
    }

    /** `_next_player`, then that seat's blind. */
    method Blind(action: Env.Action) returns (st: Status)
      requires Valid()
      modifies this, cycle
      ensures cycle == old(cycle)
      ensures Agrees(st, Env.Blind(old(State()), action), State())
      decreases Env.Measure(stage), 2
    {
      st := NextPlayer();
      if st.Raised? {
        return;
      }
      st := ProcessDecision(action);
    }

    // -------------------------------------------------------------------------
    // Legal moves.

    /** `_get_legal_moves`: `action_space` becomes the moves `Env.LegalMoves` allows, or the
        call raises what it raises. */
    method GetLegalMoves() returns (st: Status)
      requires Valid()
      modifies this`actionSpace
      ensures Agrees(st, Env.WithLegalMoves(old(State())), State())
    {
      var moves := LegalMoves();
      if moves.Err? {
        return Raised(moves.error);
      }
      actionSpace := moves.value;
      return Done;
    }

    /** The moves of `_get_legal_moves`, appended in the source's order. */
    method LegalMoves() returns (r: Result<seq<Env.Action>>)
      requires Valid()
      ensures r == Env.LegalMoves(State())
    {
      var moves := if currentRoundPot == 0.0 then [Env.CHECK] else [Env.CALL, Env.FOLD];
      var allowed := cycle.RaisingAllowed();
      if allowed.Err? {
        return Err(allowed.error);
      }
      if allowed.value {
        if currentPlayer.None? {
          return Err(AttributeError);
        }
        var raises := Raises(State(), stacks[currentPlayer.value]);
        moves := moves + raises;
      }
      return Ok(moves);
    }

    // -------------------------------------------------------------------------
    // End of a hand.

    /** `_get_winner`: the seat `Env.Winner` names, or the exception it raises. */
    method GetWinner() returns (r: Result<nat>)
      requires Valid()
      ensures r == Env.Winner(State())
    {
      var pw := cycle.GetPotentialWinners();
      var idx := Env.Indices(pw);
      if CountTrue(pw) == 1 {
        return Ok(idx[0]);
      }
      if stage != Some(Env.SHOWDOWN) {
        return Err(AssertionError);
      }
      r := Showdown(State(), idx);
    }

    /** `_award_winner(w)`: the stacks and winner `Env.Award` leaves. */
    method AwardWinner(w: nat)
      requires Valid() && w < n
      modifies this`stacks, this`winnerIx
      ensures State() == Env.Award(old(State()), w)
    {
      var cap := playerMaxWin[w];
      var total := SumReal(Env.Capped(playerMaxWin, cap));
      var remains := Env.Excess(playerMaxWin, cap);
      PayWinner(w, total);
      if total < SumReal(playerMaxWin) {
        ReturnSidePots(remains);
      }
    }

    /** The winner's stack grows by its winnings. */
    method PayWinner(w: nat, total: real)
      requires w < |stacks|
      modifies this`stacks, this`winnerIx
      ensures State() == old(State()).(stacks := old(stacks)[w := old(stacks)[w] + total], winnerIx := Some(w))
    {
      stacks, winnerIx := stacks[w := stacks[w] + total], Some(w);
    }

    /** `for i, player in enumerate(players): player.stack += remains[i]`. */
    method ReturnSidePots(remains: seq<real>)
      requires |remains| == |stacks|
      modifies this`stacks
      ensures State() == old(State()).(stacks := Env.AddEach(old(stacks), remains))
    {
      var i := 0;
      while i < |remains|
        invariant i <= |remains| == |stacks|
        invariant forall j :: 0 <= j < i ==> stacks[j] == old(stacks)[j] + remains[j]
        invariant forall j :: i <= j < |stacks| ==> stacks[j] == old(stacks)[j]
      {
        stacks := stacks[i := stacks[i] + remains[i]];
        i := i + 1;
      }
    }

    /** `_end_hand`: the state `Env.EndHand` leaves, or the exception it names. */
    method EndHand() returns (st: Status)
      requires Valid()
      modifies this`communityPot, this`currentRoundPot, this`playerPots, this`stacks, this`winnerIx
      ensures Agrees(st, Env.EndHand(old(State())), State())
    {
      CleanUpPots();
      var w := GetWinner();
      if w.Err? {
        return Raised(w.error);
      }
      AwardWinner(w.value);
      return Done;
    }

    // -------------------------------------------------------------------------
    // A new hand.

    /** `_check_game_over`: the state `Env.CheckGameOver` leaves and whether the game is
        over, or the exception it names. */
    method CheckGameOver() returns (r: Result<bool>)
      requires Valid()
      modifies this`playerStatus, this`done, cycle
      ensures Returns(r, Env.CheckGameOver(old(State())), State())
    {
      cycle.NewHandReset();
      var alive := ScanStacks();
      if alive.Err? {
        return Err(alive.error);
      }
      if alive.value < 2 {
        done := true;
        return Ok(true);
      }
      return Ok(false);
    }

    /** The loop of `_check_game_over`: the state and count `Env.ScanStacks` gives from seat
        0, or the exception it names. */
    method ScanStacks() returns (r: Result<nat>)
      requires Valid()
      modifies this`playerStatus, cycle
      ensures Returns(r, Env.ScanStacks(old(State()), 0), State())
    {
      ghost var t := State();
      var count: nat := 0;
      for i := 0 to n
        invariant Valid() && cycle == old(cycle)
        invariant Env.ScanStacks(t, 0) == Counted(Env.ScanStacks(State(), i), count)
      {
        var k := ScanSeat(i);
        if k.Err? {
          return Err(k.error);
        }
        count := count + k.value;
      }
      return Ok(count);
    }

    /** One seat of the `_check_game_over` loop: 1 for a seat with chips; a broke seat is
        recorded in `player_status` and deactivated. */
    method ScanSeat(i: nat) returns (r: Result<nat>)
      requires Valid() && i < n
      modifies this`playerStatus, cycle
      ensures r.Ok? ==> Valid() && Env.ScanStacks(old(State()), i) == Counted(Env.ScanStacks(State(), i + 1), r.value)
      ensures r.Err? ==> Env.ScanStacks(old(State()), i) == Err(r.error)
    {
      if stacks[i] > 0.0 {
        return Ok(1);
      }
      playerStatus := playerStatus + [false];
      var st := cycle.DeactivatePlayer(i);
      if st.Raised? {
        return Err(st.exc);
      }
      return Ok(0);
    }

    /** `_next_dealer`: the cycle's next dealer becomes `dealer_pos`. */
    method NextDealer() returns (st: Status)
      requires Valid()
      modifies this`dealerPos, cycle
      ensures Agrees(st, Env.NextDealer(old(State())), State())
    {
      var seat := cycle.NextDealer();
      if seat.Err? {
        return Raised(seat.error);
      }
      dealerPos := seat.value;
      return Done;
    }

    /** The resets of `_start_new_hand` before the dealer moves. */
    method FreshHand()
      requires Valid()
      modifies this`tableCards, this`deck, this`stage, this`cards, this`communityPot,
        this`currentRoundPot, this`playerPots, this`playerMaxWin, this`lastPlayerPot
      ensures State() == Env.FreshHand(old(State()))
    {
      ClearTable();
      ClearPots();
    }

    /** No table cards, a fresh deck, preflop and no hole cards. */
    method ClearTable()
      modifies this`tableCards, this`deck, this`stage, this`cards
      ensures State() == old(State()).(tableCards := [], deck := Env.CardDeck(), stage := Some(Env.PREFLOP), cards := Repeat([], n))
    {
      var full := NewDeck();
      LayTable([], full);
      SetStage(Some(Env.PREFLOP));
      ClearHands();
    }

    /** `player.cards = []` for every player. */
    method ClearHands()
      modifies this`cards
      ensures State() == old(State()).(cards := Repeat([], n))
    {
      cards := Repeat([], n);
    }

    /** Empty pots and no stakes. */
    method ClearPots()
      modifies this`communityPot, this`currentRoundPot, this`playerPots, this`playerMaxWin, this`lastPlayerPot
      ensures State() == old(State()).(communityPot := 0.0, currentRoundPot := 0.0, playerPots := Repeat(0.0, n),
        playerMaxWin := Repeat(0.0, n), lastPlayerPot := 0.0)
    {
      EmptyPots();
      EmptySeatPots();
      ClearStakes();
    }

    /** `community_pot = 0`, `current_round_pot = 0`. */
    method EmptyPots()
      modifies this`communityPot, this`currentRoundPot
      ensures State() == old(State()).(communityPot := 0.0, currentRoundPot := 0.0)
    {
      communityPot, currentRoundPot := 0.0, 0.0;
    }

    /** `player_max_win = [0] * len(players)`, `last_player_pot = 0`. */
    method ClearStakes()
      modifies this`playerMaxWin, this`lastPlayerPot
      ensures State() == old(State()).(playerMaxWin := Repeat(0.0, n), lastPlayerPot := 0.0)
    {
      playerMaxWin, lastPlayerPot := Repeat(0.0, n), 0.0;
    }

    /** `_start_new_hand`: the state `Env.StartNewHand` leaves, or the exception it names. */
    method StartNewHand() returns (st: Status)
      requires Valid()
      modifies this, cycle
      ensures cycle == old(cycle)
      ensures Agrees(st, Env.StartNewHand(old(State())), State())
    {
      var over := CheckGameOver();
      if over.Err? {
        return Raised(over.error);
      }
      if over.value {
        return Done;
      }
      st := DealHand();
    }

    /** The part of `_start_new_hand` after the game-over check. */
    method DealHand() returns (st: Status)
      requires Valid()
      modifies this, cycle
      ensures cycle == old(cycle)
      ensures Agrees(st, Env.DealHand(old(State())), State())
    {
      FreshHand();
      st := NextDealer();
      if st.Raised? {
        return;
      }
      st := DistributeCards();
      if st.Raised? {
        return;
      }
      st := InitiateRound();
    }

    // -------------------------------------------------------------------------
    // The environment.

    /** `_get_environment`, as far as it touches the table. */
    method GetEnvironment() returns (st: Status)
      requires Valid()
      modifies this`actionSpace, this`currentPlayer
      ensures Agrees(st, Env.GetEnvironment(old(State())), State())
    {
      if !done {
        st := GetLegalMoves();
        if st.Raised? {
          return;
        }
      }
      if stage.None? {
        return Raised(AttributeError);
      }
      if currentPlayer.None? {
        if winnerIx.None? {
          return Raised(TypeError);
        }
        currentPlayer := winnerIx;
      }
      st := GetLegalMoves();
    }

    /** `step(action)`: the state `Env.Step` leaves, or the exception it names. */
    method Step(action: Env.Action) returns (st: Status)
      requires Valid()
      modifies this, cycle
      ensures cycle == old(cycle)
      ensures Agrees(st, Env.Step(old(State()), action), State())
    {
      if stage.None? {
        return Raised(AttributeError);
      }
      st := Play(action);
      if st.Raised? {
        return;
      }
      st := Settle();
    }

    /** The decision and the next player. */
    method Play(action: Env.Action) returns (st: Status)
      requires Valid()
      modifies this, cycle
      ensures cycle == old(cycle)
      ensures Agrees(st, Env.Play(old(State()), action), State())
    {
      st := ProcessDecision(action);
      if st.Raised? {
        return;
      }
      st := NextPlayer();
    }

    /** A new hand when this one is over, `update_alive` and the new environment. */
    method Settle() returns (st: Status)
      requires Valid()
      modifies this, cycle
      ensures cycle == old(cycle)
      ensures Agrees(st, Env.Settle(old(State())), State())
    {
      if stage == Some(Env.END_HIDDEN) || stage == Some(Env.SHOWDOWN) {
        st := NewHand();
        if st.Raised? {
          return;
        }
      }
      st := Observe();
    }

    /** `update_alive`, then `_get_environment`. */
    method Observe() returns (st: Status)
      requires Valid()
      modifies this`actionSpace, this`currentPlayer, cycle
      ensures var t := old(State());
        Agrees(st, Env.GetEnvironment(t.(cycle := EnvCycle.AfterUpdateAlive(t.cycle))), State())
    {
      cycle.UpdateAlive();
      st := GetEnvironment();
    }

    /** `_end_hand` then `_start_new_hand`. */
    method NewHand() returns (st: Status)
      requires Valid()
      modifies this, cycle
      ensures cycle == old(cycle)
      ensures Agrees(st, Env.NewHand(old(State())), State())
    {
      st := EndHand();
      if st.Raised? {
        return;
      }
      st := StartNewHand();
    }

    /** `reset()`: the state `Env.Reset` leaves, or the exception it names, on a new
        `PlayerCycle`. */
    method Reset() returns (st: Status)
      requires Valid()
      modifies this
      ensures fresh(cycle)
      ensures Agrees(st, Env.Reset(old(State())), State())
    {
      Restart();
      st := StartNewHand();
      if st.Raised? {
        return;
      }
      st := GetEnvironment();
    }

    /** The head of `reset()`: full stacks, dealer position 0 and a new cycle with dealer -1
        and at most n steps after a raiser. */
    method Restart()
      requires Valid()
      modifies this
      ensures fresh(cycle) && Valid()
      ensures State() == Env.Restarted(old(State()))
    {
      Refill();
      NewCycle();
    }

    /** `done = False` and every stack back to the initial stack. */
    method Refill()
      modifies this`done, this`stacks
      ensures State() == old(State()).(done := false, stacks := Repeat(initialStacks, n))
    {
      done, stacks := false, Repeat(initialStacks, n);
    }

    /** `dealer_pos = 0` and a new cycle with dealer -1 and at most n steps after a
        raiser. */
    method NewCycle()
      modifies this`dealerPos, this`cycle
      ensures fresh(cycle)
      ensures State() == old(State()).(dealerPos := 0, cycle := EnvCycle.Initial(n, 0, -1, None, None, Some(n)))
    {
      dealerPos := 0;
      cycle := new EnvCycle.PlayerCycle(n, 0, -1, None, None, Some(n));
    }
  }

  /** The raises `_get_legal_moves` appends for a seat holding `stack`. */
  method Raises(t: Env.Table, stack: real) returns (raises: seq<Env.Action>)
    ensures raises == Env.Raises(t, stack)
  {
    raises := [];
    if Env.Offered(t, stack, Env.RAISE_3BB) {
      raises := raises + [Env.RAISE_3BB];
    }
    if Env.Offered(t, stack, Env.RAISE_HAlF_POT) {
      raises := raises + [Env.RAISE_HAlF_POT];
    }
    if Env.Offered(t, stack, Env.RAISE_POT) {
      raises := raises + [Env.RAISE_POT];
    }
    if Env.Offered(t, stack, Env.RAISE_2POT) {
      raises := raises + [Env.RAISE_2POT];
    }
    if stack > 0.0 {
      raises := raises + [Env.ALL_IN];
    }
  }

  /** `get_winner` on the hole cards of the given seats: the seat `Env.Showdown` names, or
      the exception it raises. */
  method Showdown(t: Env.Table, seats: seq<nat>) returns (r: Result<nat>)
    requires Env.WellFormed(t) && forall k :: 0 <= k < |seats| ==> seats[k] < t.n
    ensures r == Env.Showdown(t, seats)
  {
    var hands := Env.HandsOf(t, seats);
    Env.CombinedCards(hands, t.tableCards);
    var best := HandEvaluator.GetWinner(hands, t.tableCards);
    if best.Err? {
      return Err(best.error);
    }
    HandEvaluator.GetWinnerIsBest(hands, t.tableCards);
    return Ok(seats[best.value.0]);
  }

  /** The scan's count from an earlier seat: `k` more seats with chips. */
  function Counted(r: Result<(Env.Table, nat)>, k: nat): Result<(Env.Table, nat)> {
    match r
    case Ok((d, m)) => Ok((d, m + k))
    case Err(e) => Err(e)
  }

  /** The deal loop of `_distribute_cards` over the seats' hole cards, the deck and the
      draws. */
  method DealHoleCards(stacks: seq<real>, entry: Env.Shoe) returns (r: Result<Env.Shoe>)
    requires |stacks| == |entry.cards|
    ensures r == Env.DealFrom(stacks, entry, 0)
  {
    var shoe := entry;
    for i := 0 to |stacks|
      invariant |shoe.cards| == |stacks|
      invariant Env.DealFrom(stacks, shoe, i) == Env.DealFrom(stacks, entry, 0)
    {
      shoe :- DealSeatCards(stacks, shoe, i);
    }
    return Ok(shoe);
  }

  /** One seat of the deal loop: `player.cards = []`, and two draws for a seat with chips. */
  method DealSeatCards(stacks: seq<real>, s: Env.Shoe, i: nat) returns (r: Result<Env.Shoe>)
    requires i < |stacks| == |s.cards|
    ensures r == Env.DealSeat(stacks, s, i)
  {
    var hand := [];
    var deck, draws := s.deck, s.draws;
    if stacks[i] > 0.0 {
      for k := 0 to 2
        invariant |hand| == k
        invariant k == 0 ==> deck == s.deck && draws == s.draws
        invariant k >= 1 ==> Env.Draw(s.deck, s.draws).Ok?
        invariant k == 1 ==> var (c1, d1, r1) := Env.Draw(s.deck, s.draws).value;
          hand == [c1] && deck == d1 && draws == r1
        invariant k == 2 ==> var (c1, d1, r1) := Env.Draw(s.deck, s.draws).value;
          Env.Draw(d1, r1).Ok? && hand == [c1, Env.Draw(d1, r1).value.0]
          && deck == Env.Draw(d1, r1).value.1 && draws == Env.Draw(d1, r1).value.2
      {
        var card :- PopCard(deck, draws);
        hand := hand + [card.0];
        deck, draws := card.1, card.2;
      }
    }
    return Ok(Env.Shoe(s.cards[i := hand], deck, draws));
  }

  /** The comprehension of `_create_card_deck`: for each value, each suit. */
  method NewDeck() returns (deck: seq<string>)
    ensures deck == Env.CardDeck()
  {
    var values := RANKS;
    var suites := SUITS;
    deck := [];
    for x := 0 to |values|
      invariant deck == Env.CardDeck()[..4 * x]
    {
      for y := 0 to |suites|
        invariant deck == Env.CardDeck()[..4 * x + y]
      {
        DeckGrows(x, y);
        deck := deck + [[values[x], suites[y]]];
      }
    }
  }

  /** Round y of the inner loop in round x of the outer one appends card 4x + y. */
  lemma DeckGrows(x: int, y: int)
    requires 0 <= x < 13 && 0 <= y < 4
    ensures Env.CardDeck()[..4 * x + y + 1] == Env.CardDeck()[..4 * x + y] + [[RANKS[x], SUITS[y]]]
  {
    var k := 4 * x + y;
    assert k / 4 == x && k % 4 == y;
    assert Env.CardDeck()[k] == [RANKS[x], SUITS[y]];
  }

  /** `deck.pop(np.random.randint(0, len(deck)))`, the index taken from the draws: the card
      and what is left of the deck and of the draws. */
  method PopCard(deck: seq<string>, draws: seq<int>) returns (r: Result<(string, seq<string>, seq<int>)>)
    ensures r == Env.Draw(deck, draws)
  {
    if |deck| == 0 {
      return Err(ValueError);
    }
    if draws == [] || !(0 <= draws[0] < |deck|) {
      return Err(BadDraw);
    }
    var k := draws[0];
    var card := deck[k];
    var rest := deck[..k] + deck[k + 1..];
    return Ok((card, rest, draws[1..]));
  }

  /** The loop of `_distribute_cards_to_table` on the table's cards, deck and draws. */
  method DealCommunity(t: Env.Table, amount: nat) returns (r: Result<(seq<string>, seq<string>, seq<int>)>)
    requires Env.WellFormed(t)
    ensures Env.DealToTable(t, amount).Ok? <==> r.Ok?
    ensures r.Ok? ==> Env.DealToTable(t, amount).value == t.(tableCards := r.value.0, deck := r.value.1, draws := r.value.2)
    ensures r.Err? ==> Env.DealToTable(t, amount) == Err(r.error)
  {
    var tableCards, deck, draws := t.tableCards, t.deck, t.draws;
    for i := 0 to amount
      invariant Env.WellFormed(t.(tableCards := tableCards, deck := deck, draws := draws))
      invariant Env.DealToTable(t.(tableCards := tableCards, deck := deck, draws := draws), amount - i)
        == Env.DealToTable(t, amount)
    {
      var card :- PopCard(deck, draws);
      tableCards := tableCards + [card.0];
      deck, draws := card.1, card.2;
    }
    return Ok((tableCards, deck, draws));
  }
}
