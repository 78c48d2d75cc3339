/** The six-player scenario of `test_init_env` in tests/test_gym_env.py: a table of six
    seats with 100 chips each and blinds of 1 and 2 is reset, and then plays CALL, FOLD,
    FOLD, FOLD, CALL and CALL. The draws that deal the cards are any in range; the stacks
    and the street do not depend on the cards. */
module InitEnv {
  import opened Common
  import opened Seats
  import opened Env
  import EnvCycle

  /** `env.step(action)` once per action, in order, with no agent playing by itself. */
  function Run(t: Table, actions: seq<Action>): Result<Table>
    requires WellFormed(t)
    decreases |actions|
  {
    if actions == [] then Ok(t)
    else
      var d :- Step(t, actions[0]);
      Run(d, actions[1..])
  }

  /** The next k draws index into a deck of `size`, `size - 1`, ... cards. */
  predicate Drawable(draws: seq<int>, size: int, k: nat) {
    |draws| >= k && forall j :: 0 <= j < k ==> 0 <= draws[j] < size - j
  }

  /** `test_init_env`: after `reset()` seat 0 holds two cards and utg (seat 3) is to act;
      after CALL, FOLD, FOLD, FOLD, CALL and CALL, seats 1, 2 and 3 hold 98, seats 0, 4
      and 5 hold 100, and the stage is the flop, with 12 chips in the community pot and
      three cards on the table. */
  lemma TestInitEnv(draws: seq<int>)
    requires Drawable(draws, 52, 15)
    ensures Reset(Opening(draws)).Ok?
    ensures var r := Reset(Opening(draws)).value;
      && r.n == 6 && |r.cards[0]| == 2 && r.currentPlayer == Some(3)
      && Run(r, [CALL, FOLD, FOLD, FOLD, CALL, CALL]).Ok?
      && var f := Run(r, [CALL, FOLD, FOLD, FOLD, CALL, CALL]).value;
      && f.stacks == [100.0, 98.0, 98.0, 98.0, 100.0, 100.0]
      && f.stage == Some(FLOP) && f.communityPot == 12.0 && |f.tableCards| == 3
  {
    ResetOpens(draws);
    FromUtg(Reset(Opening(draws)).value);
  }

  // ---------------------------------------------------------------------------
  // The preflop street.

  /** The cycle during the preflop street, once the blinds are posted: the dealer on seat
      0, 14 steps allowed, raising allowed up to step 8, the big blind the last raiser at
      step 2, and no seat all in. */
  function Street(counter: int, idx: int, active: seq<bool>, alive: seq<bool>, folded: seq<bool>,
                  secondRound: bool): EnvCycle.CycleState
  {
    EnvCycle.CycleState(6, 0, Some(14), Some(8), Some(6), Some(2), counter, secondRound, idx, 0,
      active, alive, Repeat(false, 6), 0, Some(folded))
  }

  /** Seats 4, 5 and 0 fold in turn. */
  function Active(folds: nat): seq<bool> {
    if folds == 0 then Repeat(true, 6)
    else if folds == 1 then Repeat(true, 6)[4 := false]
    else if folds == 2 then Repeat(true, 6)[4 := false][5 := false]
    else Repeat(true, 6)[4 := false][5 := false][0 := false]
  }

  /** The folder flags of the same seats. */
  function Folded(folds: nat): seq<bool> {
    if folds == 0 then Repeat(false, 6)
    else if folds == 1 then Repeat(false, 6)[4 := true]
    else if folds == 2 then Repeat(false, 6)[4 := true][5 := true]
    else Repeat(false, 6)[4 := true][5 := true][0 := true]
  }

  /** The preflop table of the scenario: the stacks, the seats' pots (every chip paid in
      so far is on this street), the street pot, the last pot and `min_call` both at
      `last`, nothing in the community pot, the cycle c, no table cards yet, the 40 cards
      left after the deal with three more draws to come, and two cards for every seat. */
  ghost predicate Posted(t: Table, stacks: seq<real>, pots: seq<real>, street: real, last: real, c: EnvCycle.CycleState) {
    && WellFormed(t) && t.n == 6 && t.smallBlind == 1.0 && t.bigBlind == 2.0
    && t.stage == Some(PREFLOP) && !t.done
    && t.stacks == stacks && t.playerPots == pots && t.playerMaxWin == pots
    && t.currentRoundPot == street && t.lastPlayerPot == last && t.minCall == last
    && t.communityPot == 0.0 && t.cycle == c
    && t.tableCards == [] && |t.deck| == 40 && Drawable(t.draws, 40, 3)
    && (forall i :: 0 <= i < 6 ==> |t.cards[i]| == 2)
  }

  /** Once the big blind is in. */
  ghost predicate Bets(t: Table, stacks: seq<real>, pots: seq<real>, street: real, c: EnvCycle.CycleState) {
    Posted(t, stacks, pots, street, 2.0, c)
  }

  /** And seat `seat` is to act, with CALL and FOLD among its legal moves. */
  ghost predicate Turn(t: Table, stacks: seq<real>, pots: seq<real>, street: real, c: EnvCycle.CycleState, seat: nat) {
    && Bets(t, stacks, pots, street, c)
    && t.currentPlayer == Some(seat) && CALL in t.actionSpace && FOLD in t.actionSpace
  }

  /** How many seats are still in after each fold. */
  lemma ActiveCounts(folds: nat)
    requires folds <= 3
    ensures |Active(folds)| == 6 && |Folded(folds)| == 6
    ensures CountTrue(Active(folds)) == 6 - folds
    ensures OrSeq(Active(folds), Repeat(false, 6)) == Active(folds)
  {
    AllSet(6);
    OrNothing(Active(folds));
    var f := Repeat(true, 6);
    if folds >= 1 {
      CountTrueClear(f, 4);
    }
    if folds >= 2 {
      CountTrueClear(f[4 := false], 5);
    }
    if folds >= 3 {
      CountTrueClear(f[4 := false][5 := false], 0);
    }
  }

  /** Before step 9, `next_player` moves the cycle to the next seat when that seat can
      still move. */
  lemma StreetNext(counter: int, idx: nat, active: seq<bool>, alive: seq<bool>, folded: seq<bool>,
                   secondRound: bool, next: nat)
    requires Ready(counter, idx, active, alive, folded, next)
    ensures EnvCycle.AfterNextPlayer(Street(counter, idx, active, alive, folded, secondRound), 1)
      == Ok((Street(counter + 1, next, active, active, folded, counter + 1 > 6 || secondRound), Some(next)))
  {
    var c := Street(counter, idx, active, alive, folded, secondRound);
    CycleNext(c, next);
  }

  /** What `StreetNext` needs: one entry per seat, two seats or more still in, a seat
      alive, and the next seat able to move before step 8. */
  predicate Ready(counter: int, idx: nat, active: seq<bool>, alive: seq<bool>, folded: seq<bool>, next: nat) {
    && |active| == 6 && |alive| == 6 && |folded| == 6
    && CountTrue(active) >= 2 && OrSeq(active, Repeat(false, 6)) == active && CountTrue(alive) > 0
    && idx < 6 && next == (idx + 1) % 6 && active[next]
    && 0 <= counter < 8
  }

  /** The same on any cycle that allows raises up to step 8, when the step limit and the
      raising window are still ahead. */
  lemma CycleNext(c: EnvCycle.CycleState, next: nat)
    requires Moving(c, next)
    ensures EnvCycle.AfterNextPlayer(c, 1) == Ok((c.(idx := next, counter := c.counter + 1,
      secondRound := c.counter + 1 > c.size || c.secondRound, alive := OrSeq(c.canMove, c.outOfCash)), Some(next)))
  {
    assert Advance(next, 0, 6) == next;
    EnvCycle.NextPlayerAfterGap(c, 1, next, 0);
  }

  /** What `CycleNext` needs. */
  predicate Moving(c: EnvCycle.CycleState, next: nat) {
    && EnvCycle.WellFormed(c) && c.size == 6 && EnvCycle.Eligible(c) >= 2 && CountTrue(c.alive) > 0
    && c.maxStepsTotal.Some? && c.counter + 1 < c.maxStepsTotal.value
    && c.maxStepsAfterRaiser == Some(6) && c.lastRaiser == Some(2)
    && c.checkers == 0 && 0 <= c.idx < 6 && next == (c.idx + 1) % 6 && c.canMove[next]
    && 0 <= c.counter < 8
  }

  /** A `step` is the decision, the next player and what follows it. */
  lemma StepIs(t: Table, action: Action)
    requires WellFormed(t) && t.stage.Some? && ProcessDecision(t, action).Ok?
    requires NextPlayer(ProcessDecision(t, action).value).Ok?
    ensures Step(t, action) == Settle(NextPlayer(ProcessDecision(t, action).value).value)
  {
  }

  /** What a CALL at the big blind's level costs seat `seat`: the seat has put in at most
      the big blind and holds more than the rest. */
  predicate Payable(stacks: seq<real>, pots: seq<real>, seat: nat) {
    |stacks| == 6 && |pots| == 6 && seat < 6 && 0.0 <= pots[seat] <= 2.0 && stacks[seat] > 2.0 - pots[seat]
  }

  /** CALL pays the difference to the big blind: no raise, no seat all in, and the cycle
      left as it was. */
  lemma CallDecides(t: Table, stacks: seq<real>, pots: seq<real>, street: real, c: EnvCycle.CycleState, seat: nat)
    requires Turn(t, stacks, pots, street, c, seat) && Payable(stacks, pots, seat)
    ensures ProcessDecision(t, CALL).Ok?
    ensures var paid := 2.0 - pots[seat];
      var d := ProcessDecision(t, CALL).value;
      Bets(d, stacks[seat := stacks[seat] - paid], pots[seat := 2.0], street + paid, c) && d.currentPlayer == Some(seat)
  {
  }

  /** FOLD deactivates the seat and marks it folded; no chip moves. */
  lemma FoldDecides(t: Table, stacks: seq<real>, pots: seq<real>, street: real, counter: int, seat: nat,
                    active: seq<bool>, folded: seq<bool>, secondRound: bool)
    requires Turn(t, stacks, pots, street, Street(counter, seat, active, active, folded, secondRound), seat)
    requires |active| == 6 && |folded| == 6 && seat < 6 && active[seat]
    ensures ProcessDecision(t, FOLD).Ok?
    ensures var d := ProcessDecision(t, FOLD).value;
      Bets(d, stacks, pots, street, Street(counter, seat, active[seat := false], active, folded[seat := true], secondRound))
      && d.currentPlayer == Some(seat)
  {
  }

  /** Before step 9, the next player is the next seat, when it can still move, and the
      new environment offers it CALL and FOLD. */
  lemma StreetPlays(d: Table, stacks: seq<real>, pots: seq<real>, street: real, counter: int, seat: nat,
                    active: seq<bool>, alive: seq<bool>, folded: seq<bool>, secondRound: bool, next: nat)
    requires Bets(d, stacks, pots, street, Street(counter, seat, active, alive, folded, secondRound))
    requires Ready(counter, seat, active, alive, folded, next) && street > 0.0
    ensures NextPlayer(d).Ok? && Settle(NextPlayer(d).value).Ok?
    ensures Turn(Settle(NextPlayer(d).value).value, stacks, pots, street,
                 Street(counter + 1, next, active, active, folded, counter + 1 > 6 || secondRound), next)
  {
    StreetNext(counter, seat, active, alive, folded, secondRound, next);
  }

  // ---------------------------------------------------------------------------
  // The end of the preflop street.

  /** The table as the flop starts: the stacks, the community pot, no table card but the
      three of the flop, the street pot empty and seat `seat` to act. */
  ghost predicate Flop(t: Table, stacks: seq<real>, community: real, seat: nat) {
    && WellFormed(t) && t.stage == Some(FLOP) && !t.done
    && t.stacks == stacks && t.communityPot == community && t.currentRoundPot == 0.0
    && t.currentPlayer == Some(seat) && |t.tableCards| == 3 && t.cycle.lastRaiserStep.Some?
  }

  /** Step 9 of the preflop street passes the raising window (9 > 6 + 2): `next_player`
      returns False. */
  lemma CycleStops()
    ensures EnvCycle.AfterNextPlayer(Street(8, 2, Active(3), Active(3), Folded(3), true), 1)
      == Ok((Street(9, 3, Active(3), Active(3), Folded(3), true), None))
  {
    ActiveCounts(3);
    var c := Street(8, 2, Active(3), Active(3), Folded(3), true);
    CycleDone(c);
    assert (2 + 1) % 6 == 3;
    assert EnvCycle.AfterNextPlayerMoved(c, 1) == c.(idx := 3, counter := 9, secondRound := true);
  }

  /** On a cycle whose raising window closes before the step limit, the step past it
      returns False. */
  lemma CycleDone(c: EnvCycle.CycleState)
    requires Stopping(c)
    ensures EnvCycle.AfterNextPlayer(c, 1) == Ok((EnvCycle.AfterNextPlayerMoved(c, 1), None))
  {
  }

  /** What `CycleDone` needs. */
  predicate Stopping(c: EnvCycle.CycleState) {
    && EnvCycle.WellFormed(c) && c.size == 6 && EnvCycle.Eligible(c) >= 2
    && c.maxStepsTotal.Some? && c.counter + 1 < c.maxStepsTotal.value
    && c.maxStepsAfterRaiser == Some(6) && c.lastRaiser == Some(2) && c.counter + 1 > 8
  }

  /** The flop's cycle: `new_round_reset` from the dealer, 12 steps, and seat 1 first. */
  lemma FlopCycle()
    ensures var c := EnvCycle.AfterNewRoundReset(Street(9, 3, Active(3), Active(3), Folded(3), true)).(maxStepsTotal := Some(12));
      EnvCycle.AfterNextPlayer(c, 1) == Ok((c.(idx := 1, counter := 1), Some(1)))
  {
    ActiveCounts(3);
    var c := EnvCycle.AfterNewRoundReset(Street(9, 3, Active(3), Active(3), Folded(3), true)).(maxStepsTotal := Some(12));
    CycleNext(c, 1);
  }

  /** Enough draws let `_distribute_cards_to_table(k)` deal its k cards. */
  lemma {:induction false} DealToTableOk(t: Table, k: nat)
    requires Dealable(t, k)
    ensures DealToTable(t, k).Ok?
    decreases k
  {
    if k > 0 {
      var (card, rest, more) := Draw(t.deck, t.draws).value;
      DealOne(t, k);
      DealToTableOk(t.(tableCards := t.tableCards + [card], deck := rest, draws := more), k - 1);
    }
  }

  /** One card drawn, k - 1 to go. */
  lemma DealOne(t: Table, k: nat)
    requires Dealable(t, k) && k > 0
    ensures Draw(t.deck, t.draws).Ok?
    ensures var (card, rest, more) := Draw(t.deck, t.draws).value;
      Dealable(t.(tableCards := t.tableCards + [card], deck := rest, draws := more), k - 1)
  {
    DrawableDrop(t.draws, |t.deck|, k, 1);
  }

  /** What `DealToTableOk` needs: k cards left and k draws in range. */
  predicate Dealable(t: Table, k: nat) {
    WellFormed(t) && |t.deck| >= k && Drawable(t.draws, |t.deck|, k)
  }

  /** With three seats left, `_next_player` at step 9 finds the raising window passed
      (9 > 6 + 2, `CycleStops`), so the street ends: the seats' pots and the street pot go
      to the community pot, the flop is dealt and its first seat is seat 1, the small
      blind. */
  lemma StreetCloses(d: Table, stacks: seq<real>, pots: seq<real>, street: real, c: EnvCycle.CycleState)
    requires Bets(d, stacks, pots, street, c)
    requires EnvCycle.AfterNextPlayer(c, 1) == Ok((Street(9, 3, Active(3), Active(3), Folded(3), true), None))
    ensures NextPlayer(d).Ok? && Flop(NextPlayer(d).value, stacks, SumReal(pots) + street, 1)
  {
    var t1 := d.(cycle := Street(9, 3, Active(3), Active(3), Folded(3), true), currentPlayer := None);
    StreetEnds(d, stacks, pots, street, c);
    FlopReached(d, stacks, pots, street, c);
    NextIsFlop(d, EndRound(t1).value, stacks, SumReal(pots) + street);
  }

  /** `_next_player` at step 9: the cycle returns False with three seats still alive, so
      the street ends and the next one starts. */
  lemma StreetEnds(d: Table, stacks: seq<real>, pots: seq<real>, street: real, c: EnvCycle.CycleState)
    requires Bets(d, stacks, pots, street, c)
    requires EnvCycle.AfterNextPlayer(c, 1) == Ok((Street(9, 3, Active(3), Active(3), Folded(3), true), None))
    ensures var t1 := d.(cycle := Street(9, 3, Active(3), Active(3), Folded(3), true), currentPlayer := None);
      EndRound(t1).Ok? ==> NextPlayer(d) == InitiateRound(EndRound(t1).value)
  {
    ActiveCounts(3);
    var t1 := d.(cycle := Street(9, 3, Active(3), Active(3), Folded(3), true), currentPlayer := None);
    NextPlayerEnds(d, t1.cycle);
  }

  /** The street's end and the flop's start. */
  lemma FlopReached(d: Table, stacks: seq<real>, pots: seq<real>, street: real, c: EnvCycle.CycleState)
    requires Bets(d, stacks, pots, street, c)
    ensures var t1 := d.(cycle := Street(9, 3, Active(3), Active(3), Folded(3), true), currentPlayer := None);
      && EndRound(t1).Ok? && InitiateRound(EndRound(t1).value).Ok?
      && Flop(InitiateRound(EndRound(t1).value).value, stacks, SumReal(pots) + street, 1)
  {
    var t1 := d.(cycle := Street(9, 3, Active(3), Active(3), Folded(3), true), currentPlayer := None);
    RoundEnds(d, stacks, pots, street, c);
    FlopOpens(EndRound(t1).value, stacks, SumReal(pots) + street);
  }

  /** Hence the flop is what `_next_player` leaves. */
  lemma NextIsFlop(d: Table, e: Table, stacks: seq<real>, community: real)
    requires WellFormed(d) && WellFormed(e)
    requires NextPlayer(d) == InitiateRound(e) && InitiateRound(e).Ok? && Flop(InitiateRound(e).value, stacks, community, 1)
    ensures NextPlayer(d).Ok? && Flop(NextPlayer(d).value, stacks, community, 1)
  {
  }

  /** `_end_round` of the preflop street: the pots move to the community pot and the
      flop is dealt. */
  lemma RoundEnds(d: Table, stacks: seq<real>, pots: seq<real>, street: real, c: EnvCycle.CycleState)
    requires Bets(d, stacks, pots, street, c)
    ensures var t := d.(cycle := Street(9, 3, Active(3), Active(3), Folded(3), true), currentPlayer := None);
      EndRound(t).Ok? && Dealt(EndRound(t).value, stacks, SumReal(pots) + street)
  {
    var t := d.(cycle := Street(9, 3, Active(3), Active(3), Folded(3), true), currentPlayer := None);
    DealToTableOk(CloseRound(t).(stage := Some(FLOP)), 3);
    EndRoundMeaning(t);
  }

  /** The flop's `_initiate_round`: a limit of 12 steps, and seat 1 first. */
  lemma FlopOpens(t: Table, stacks: seq<real>, community: real)
    requires Dealt(t, stacks, community)
    ensures InitiateRound(t).Ok? && Flop(InitiateRound(t).value, stacks, community, 1)
  {
    assert InitiateRound(t) == NextPlayer(StepLimit(RoundReset(t), 12));
    FlopFirst(StepLimit(RoundReset(t), 12), stacks, community);
  }

  /** Its `_next_player`. */
  lemma FlopFirst(t: Table, stacks: seq<real>, community: real)
    requires WellFormed(t) && Dealt(t.(cycle := Street(9, 3, Active(3), Active(3), Folded(3), true)), stacks, community)
    requires t.cycle == EnvCycle.AfterNewRoundReset(Street(9, 3, Active(3), Active(3), Folded(3), true)).(maxStepsTotal := Some(12))
    ensures NextPlayer(t).Ok? && Flop(NextPlayer(t).value, stacks, community, 1)
  {
    FlopCycle();
  }

  /** The table `_end_round` leaves at the end of the preflop street. */
  ghost predicate Dealt(t: Table, stacks: seq<real>, community: real) {
    && WellFormed(t) && t.stage == Some(FLOP) && !t.done && t.stacks == stacks
    && t.communityPot == community && t.currentRoundPot == 0.0 && |t.tableCards| == 3
    && t.cycle == Street(9, 3, Active(3), Active(3), Folded(3), true)
  }

  /** What `step` does after the flop's first `_next_player`: no new hand, `update_alive`
      and the environment, which change none of the facts `Flop` follows. */
  lemma FlopSettles(f: Table, stacks: seq<real>, community: real, seat: nat)
    requires Flop(f, stacks, community, seat)
    ensures Settle(f).Ok? && Flop(Settle(f).value, stacks, community, seat)
  {
    GetEnvironmentMeaning(f.(cycle := EnvCycle.AfterUpdateAlive(f.cycle)));
  }

  // ---------------------------------------------------------------------------
  // The steps.

  /** A CALL before step 8: the seat pays up to the big blind (`owed` = 2 minus what it
      put in), and the next seat is to act. */
  lemma CallStep(t: Table, stacks: seq<real>, pots: seq<real>, street: real, counter: int, seat: nat,
                 active: seq<bool>, folded: seq<bool>, secondRound: bool, next: nat, after: Called)
    requires Turn(t, stacks, pots, street, Street(counter, seat, active, active, folded, secondRound), seat)
    requires Payable(stacks, pots, seat) && street > 0.0 && Ready(counter, seat, active, active, folded, next)
    requires Pays(stacks, pots, street, seat, counter, secondRound, after)
    ensures Step(t, CALL).Ok?
    ensures Turn(Step(t, CALL).value, after.stacks, after.pots, after.street,
                 Street(after.counter, next, active, active, folded, after.secondRound), next)
  {
    var paid := 2.0 - pots[seat];
    CallDecides(t, stacks, pots, street, Street(counter, seat, active, active, folded, secondRound), seat);
    var d := ProcessDecision(t, CALL).value;
    StreetPlays(d, stacks[seat := stacks[seat] - paid], pots[seat := 2.0], street + paid, counter, seat,
                active, active, folded, secondRound, next);
    StepIs(t, CALL);
  }

  /** The chips and the step after a CALL. */
  datatype Called = Called(stacks: seq<real>, pots: seq<real>, street: real, counter: int, secondRound: bool)

  /** A CALL by `seat` pays `2 - pots[seat]` from its stack into its pot and the street
      pot, and the cycle moves one step. */
  predicate Pays(stacks: seq<real>, pots: seq<real>, street: real, seat: nat, counter: int, secondRound: bool, after: Called)
    requires seat < |stacks| == |pots|
  {
    var paid := 2.0 - pots[seat];
    && after.stacks == stacks[seat := stacks[seat] - paid] && after.pots == pots[seat := 2.0]
    && after.street == street + paid && after.counter == counter + 1
    && after.secondRound == (counter + 1 > 6 || secondRound)
  }

  /** A FOLD before step 8: the seat is out and the next seat is to act. */
  lemma FoldStep(t: Table, stacks: seq<real>, pots: seq<real>, street: real, counter: int, seat: nat,
                 active: seq<bool>, folded: seq<bool>, secondRound: bool, next: nat, after: Folding)
    requires Turn(t, stacks, pots, street, Street(counter, seat, active, active, folded, secondRound), seat)
    requires street > 0.0 && Folds(active, folded, seat, counter, secondRound, after)
    requires Ready(counter, seat, after.active, active, after.folded, next)
    ensures Step(t, FOLD).Ok?
    ensures Turn(Step(t, FOLD).value, stacks, pots, street,
                 Street(after.counter, next, after.active, after.active, after.folded, after.secondRound), next)
  {
    FoldDecides(t, stacks, pots, street, counter, seat, active, folded, secondRound);
    var d := ProcessDecision(t, FOLD).value;
    StreetPlays(d, stacks, pots, street, counter, seat, after.active, active, after.folded, secondRound, next);
    StepIs(t, FOLD);
  }

  /** The seats still in, the folders and the step after a FOLD. */
  datatype Folding = Folding(active: seq<bool>, folded: seq<bool>, counter: int, secondRound: bool)

  /** A FOLD by `seat` takes it out and marks it folded, and the cycle moves one step. */
  predicate Folds(active: seq<bool>, folded: seq<bool>, seat: nat, counter: int, secondRound: bool, after: Folding) {
    && |active| == 6 && |folded| == 6 && seat < 6 && active[seat]
    && after.active == active[seat := false] && after.folded == folded[seat := true]
    && after.counter == counter + 1 && after.secondRound == (counter + 1 > 6 || secondRound)
  }

  /** A CALL after which the cycle returns False (for the big blind at step 8, by
      `CycleStops`) closes the street: the flop is dealt, the seats' pots and the street
      pot, `community` in all, are in the community pot, and seat 1 is to act. */
  lemma LastCall(t: Table, stacks: seq<real>, pots: seq<real>, street: real, c: EnvCycle.CycleState, seat: nat,
                 left: seq<real>, community: real)
    requires Turn(t, stacks, pots, street, c, seat) && Payable(stacks, pots, seat)
    requires EnvCycle.AfterNextPlayer(c, 1) == Ok((Street(9, 3, Active(3), Active(3), Folded(3), true), None))
    requires left == stacks[seat := stacks[seat] - (2.0 - pots[seat])]
    requires community == SumReal(pots[seat := 2.0]) + (street + (2.0 - pots[seat]))
    ensures Step(t, CALL).Ok? && Flop(Step(t, CALL).value, left, community, 1)
  {
    var paid := 2.0 - pots[seat];
    CallDecides(t, stacks, pots, street, c, seat);
    var d := ProcessDecision(t, CALL).value;
    StreetSettles(d, stacks[seat := stacks[seat] - paid], pots[seat := 2.0], street + paid, c);
    StepIs(t, CALL);
  }

  /** After that CALL: `_next_player` closes the street and the rest of `step` keeps the
      flop. */
  lemma StreetSettles(d: Table, stacks: seq<real>, pots: seq<real>, street: real, c: EnvCycle.CycleState)
    requires Bets(d, stacks, pots, street, c)
    requires EnvCycle.AfterNextPlayer(c, 1) == Ok((Street(9, 3, Active(3), Active(3), Folded(3), true), None))
    ensures NextPlayer(d).Ok? && Settle(NextPlayer(d).value).Ok?
    ensures Flop(Settle(NextPlayer(d).value).value, stacks, SumReal(pots) + street, 1)
  {
    StreetCloses(d, stacks, pots, street, c);
    FlopSettles(NextPlayer(d).value, stacks, SumReal(pots) + street, 1);
  }

  // ---------------------------------------------------------------------------
  // The six steps of the scenario.

  /** The stacks and the seats' pots after the blinds, after utg's CALL and after the
      small blind's CALL. */
  function Stacks(calls: nat): seq<real> {
    if calls == 0 then [100.0, 99.0, 98.0, 100.0, 100.0, 100.0]
    else if calls == 1 then [100.0, 99.0, 98.0, 98.0, 100.0, 100.0]
    else [100.0, 98.0, 98.0, 98.0, 100.0, 100.0]
  }

  function Pots(calls: nat): seq<real> {
    if calls == 0 then [0.0, 1.0, 2.0, 0.0, 0.0, 0.0]
    else if calls == 1 then [0.0, 1.0, 2.0, 2.0, 0.0, 0.0]
    else [0.0, 2.0, 2.0, 2.0, 0.0, 0.0]
  }

  /** utg owes the big blind, 2, and seat 4 is next. */
  lemma UtgOwes()
    ensures Payable(Stacks(0), Pots(0), 3) && Ready(3, 3, Active(0), Active(0), Folded(0), 4)
    ensures Pays(Stacks(0), Pots(0), 3.0, 3, 3, false, Called(Stacks(1), Pots(1), 5.0, 4, false))
  {
    ActiveCounts(0);
    assert Stacks(0)[3 := Stacks(0)[3] - (2.0 - Pots(0)[3])] == Stacks(1);
  }

  /** The small blind owes 1 more, and the big blind is next. */
  lemma SmallBlindOwes()
    ensures Payable(Stacks(1), Pots(1), 1) && Ready(7, 1, Active(3), Active(3), Folded(3), 2)
    ensures Pays(Stacks(1), Pots(1), 5.0, 1, 7, true, Called(Stacks(2), Pots(2), 6.0, 8, true))
  {
    ActiveCounts(3);
    assert Stacks(1)[1 := Stacks(1)[1] - (2.0 - Pots(1)[1])] == Stacks(2);
  }

  /** Step 1: utg (seat 3) calls 2. */
  lemma UtgCalls(t: Table)
    requires Turn(t, Stacks(0), Pots(0), 3.0, Street(3, 3, Active(0), Active(0), Folded(0), false), 3)
    ensures Step(t, CALL).Ok?
    ensures Turn(Step(t, CALL).value, Stacks(1), Pots(1), 5.0, Street(4, 4, Active(0), Active(0), Folded(0), false), 4)
  {
    UtgOwes();
    CallStep(t, Stacks(0), Pots(0), 3.0, 3, 3, Active(0), Folded(0), false, 4, Called(Stacks(1), Pots(1), 5.0, 4, false));
  }

  /** Seat 4 (utg + 1) leaves, and seat 5 is next. */
  lemma Utg1Leaves()
    ensures Folds(Active(0), Folded(0), 4, 4, false, Folding(Active(1), Folded(1), 5, false))
    ensures Ready(4, 4, Active(1), Active(0), Folded(1), 5)
  {
    ActiveCounts(0);
    ActiveCounts(1);
  }

  /** Seat 5 (utg + 2) leaves, and the dealer is next. */
  lemma Utg2Leaves()
    ensures Folds(Active(1), Folded(1), 5, 5, false, Folding(Active(2), Folded(2), 6, false))
    ensures Ready(5, 5, Active(2), Active(1), Folded(2), 0)
  {
    ActiveCounts(1);
    ActiveCounts(2);
  }

  /** The dealer (seat 0) leaves at step 6, so step 7 starts the cycle's second round,
      and the small blind is next. */
  lemma DealerLeaves()
    ensures Folds(Active(2), Folded(2), 0, 6, false, Folding(Active(3), Folded(3), 7, true))
    ensures Ready(6, 0, Active(3), Active(2), Folded(3), 1)
  {
    ActiveCounts(2);
    ActiveCounts(3);
  }

  /** Step 2: seat 4 folds. */
  lemma FirstFold(t: Table)
    requires Turn(t, Stacks(1), Pots(1), 5.0, Street(4, 4, Active(0), Active(0), Folded(0), false), 4)
    ensures Step(t, FOLD).Ok?
    ensures Turn(Step(t, FOLD).value, Stacks(1), Pots(1), 5.0, Street(5, 5, Active(1), Active(1), Folded(1), false), 5)
  {
    Utg1Leaves();
    FoldStep(t, Stacks(1), Pots(1), 5.0, 4, 4, Active(0), Folded(0), false, 5, Folding(Active(1), Folded(1), 5, false));
  }

  /** Step 3: seat 5 folds. */
  lemma SecondFold(t: Table)
    requires Turn(t, Stacks(1), Pots(1), 5.0, Street(5, 5, Active(1), Active(1), Folded(1), false), 5)
    ensures Step(t, FOLD).Ok?
    ensures Turn(Step(t, FOLD).value, Stacks(1), Pots(1), 5.0, Street(6, 0, Active(2), Active(2), Folded(2), false), 0)
  {
    Utg2Leaves();
    FoldStep(t, Stacks(1), Pots(1), 5.0, 5, 5, Active(1), Folded(1), false, 0, Folding(Active(2), Folded(2), 6, false));
  }

  /** Step 4: the dealer (seat 0) folds. */
  lemma ThirdFold(t: Table)
    requires Turn(t, Stacks(1), Pots(1), 5.0, Street(6, 0, Active(2), Active(2), Folded(2), false), 0)
    ensures Step(t, FOLD).Ok?
    ensures Turn(Step(t, FOLD).value, Stacks(1), Pots(1), 5.0, Street(7, 1, Active(3), Active(3), Folded(3), true), 1)
  {
    DealerLeaves();
    FoldStep(t, Stacks(1), Pots(1), 5.0, 6, 0, Active(2), Folded(2), false, 1, Folding(Active(3), Folded(3), 7, true));
  }

  /** Step 5: the small blind (seat 1) calls 1 more. */
  lemma SmallBlindCalls(t: Table)
    requires Turn(t, Stacks(1), Pots(1), 5.0, Street(7, 1, Active(3), Active(3), Folded(3), true), 1)
    ensures Step(t, CALL).Ok?
    ensures Turn(Step(t, CALL).value, Stacks(2), Pots(2), 6.0, Street(8, 2, Active(3), Active(3), Folded(3), true), 2)
  {
    SmallBlindOwes();
    CallStep(t, Stacks(1), Pots(1), 5.0, 7, 1, Active(3), Folded(3), true, 2, Called(Stacks(2), Pots(2), 6.0, 8, true));
  }

  /** The big blind owes nothing more: its CALL leaves the stacks as they are and puts
      the 6 chips of the seats' pots and the 6 of the street pot together. */
  lemma BigBlindOwes()
    ensures Payable(Stacks(2), Pots(2), 2)
    ensures Stacks(2) == Stacks(2)[2 := Stacks(2)[2] - (2.0 - Pots(2)[2])]
    ensures 12.0 == SumReal(Pots(2)[2 := 2.0]) + (6.0 + (2.0 - Pots(2)[2]))
  {
    assert Pots(2)[2 := 2.0] == Pots(2);
    assert Pots(2)[1..][1..][1..][1..][1..][1..] == [];
  }

  /** Step 6: the big blind (seat 2) calls, which ends the street: 12 chips in the
      community pot, the flop on the table and seat 1 to act. */
  lemma BigBlindCalls(t: Table)
    requires Turn(t, Stacks(2), Pots(2), 6.0, Street(8, 2, Active(3), Active(3), Folded(3), true), 2)
    ensures Step(t, CALL).Ok? && Flop(Step(t, CALL).value, Stacks(2), 12.0, 1)
  {
    CycleStops();
    BigBlindOwes();
    LastCall(t, Stacks(2), Pots(2), 6.0, Street(8, 2, Active(3), Active(3), Folded(3), true), 2, Stacks(2), 12.0);
  }

  /** One more step in front of a run that reaches the flop. */
  lemma RunFrom(t: Table, action: Action, rest: seq<Action>, stacks: seq<real>, community: real)
    requires WellFormed(t) && Step(t, action).Ok? && Run(Step(t, action).value, rest).Ok?
    requires Flop(Run(Step(t, action).value, rest).value, stacks, community, 1)
    ensures Run(t, [action] + rest).Ok? && Flop(Run(t, [action] + rest).value, stacks, community, 1)
  {
    assert ([action] + rest)[1..] == rest;
  }

  /** From step 6: the big blind's CALL. */
  lemma FromBigBlind(t: Table)
    requires Turn(t, Stacks(2), Pots(2), 6.0, Street(8, 2, Active(3), Active(3), Folded(3), true), 2)
    ensures Run(t, [CALL]).Ok? && Flop(Run(t, [CALL]).value, Stacks(2), 12.0, 1)
  {
    BigBlindCalls(t);
    RunFrom(t, CALL, [], Stacks(2), 12.0);
  }

  /** From step 5: the small blind's CALL, then the big blind's. */
  lemma FromSmallBlind(t: Table)
    requires Turn(t, Stacks(1), Pots(1), 5.0, Street(7, 1, Active(3), Active(3), Folded(3), true), 1)
    ensures Run(t, [CALL, CALL]).Ok? && Flop(Run(t, [CALL, CALL]).value, Stacks(2), 12.0, 1)
  {
    SmallBlindCalls(t);
    FromBigBlind(Step(t, CALL).value);
    RunFrom(t, CALL, [CALL], Stacks(2), 12.0);
  }

  /** From step 4: the dealer's FOLD and the blinds' CALLs. */
  lemma FromDealer(t: Table)
    requires Turn(t, Stacks(1), Pots(1), 5.0, Street(6, 0, Active(2), Active(2), Folded(2), false), 0)
    ensures Run(t, [FOLD, CALL, CALL]).Ok? && Flop(Run(t, [FOLD, CALL, CALL]).value, Stacks(2), 12.0, 1)
  {
    ThirdFold(t);
    FromSmallBlind(Step(t, FOLD).value);
    RunFrom(t, FOLD, [CALL, CALL], Stacks(2), 12.0);
  }

  /** From step 3. */
  lemma FromUtg2(t: Table)
    requires Turn(t, Stacks(1), Pots(1), 5.0, Street(5, 5, Active(1), Active(1), Folded(1), false), 5)
    ensures Run(t, [FOLD, FOLD, CALL, CALL]).Ok? && Flop(Run(t, [FOLD, FOLD, CALL, CALL]).value, Stacks(2), 12.0, 1)
  {
    SecondFold(t);
    FromDealer(Step(t, FOLD).value);
    RunFrom(t, FOLD, [FOLD, CALL, CALL], Stacks(2), 12.0);
  }

  /** From step 2. */
  lemma FromUtg1(t: Table)
    requires Turn(t, Stacks(1), Pots(1), 5.0, Street(4, 4, Active(0), Active(0), Folded(0), false), 4)
    ensures Run(t, [FOLD, FOLD, FOLD, CALL, CALL]).Ok?
    ensures Flop(Run(t, [FOLD, FOLD, FOLD, CALL, CALL]).value, Stacks(2), 12.0, 1)
  {
    FirstFold(t);
    FromUtg2(Step(t, FOLD).value);
    RunFrom(t, FOLD, [FOLD, FOLD, CALL, CALL], Stacks(2), 12.0);
  }

  /** The six steps from utg's turn: CALL, FOLD, FOLD, FOLD, CALL, CALL reach the flop
      with stacks 100, 98, 98, 98, 100, 100 and 12 chips in the community pot. */
  lemma FromUtg(t: Table)
    requires Turn(t, Stacks(0), Pots(0), 3.0, Street(3, 3, Active(0), Active(0), Folded(0), false), 3)
    ensures Run(t, [CALL, FOLD, FOLD, FOLD, CALL, CALL]).Ok?
    ensures Flop(Run(t, [CALL, FOLD, FOLD, FOLD, CALL, CALL]).value, Stacks(2), 12.0, 1)
  {
    UtgCalls(t);
    FromUtg1(Step(t, CALL).value);
    RunFrom(t, CALL, [FOLD, FOLD, FOLD, CALL, CALL], Stacks(2), 12.0);
  }

  // ---------------------------------------------------------------------------
  // `reset()`.

  /** `HoldemTable()` with its defaults, six players added, and the draws to come. */
  function Opening(draws: seq<int>): (t: Table)
    ensures WellFormed(t)
  {
    NewTable(6, 100.0, 1.0, 2.0).(draws := draws)
  }

  /** The cycle of the preflop street before the blinds: `new_hand_reset`, the dealer on
      seat 0, `new_round_reset` and 14 steps. */
  function PreflopCycle(): EnvCycle.CycleState {
    EnvCycle.AfterNewRoundReset(EnvCycle.AfterNewHandReset(EnvCycle.OpeningCycle()).(dealerIdx := 0)).(maxStepsTotal := Some(14))
  }

  /** The table after the game-over check of the first hand: every seat holds 100 and can
      move, and the draws are untouched. */
  ghost predicate Checked(t: Table, draws: seq<int>) {
    && WellFormed(t) && t.n == 6 && t.smallBlind == 1.0 && t.bigBlind == 2.0
    && t.stacks == Repeat(100.0, 6) && !t.done && t.draws == draws
    && t.cycle == EnvCycle.AfterNewHandReset(EnvCycle.OpeningCycle())
  }

  /** The table after the deal of the first hand: preflop, empty pots, two cards for every
      seat, 40 cards left and three more draws to come. */
  ghost predicate Shuffled(t: Table) {
    && WellFormed(t) && t.n == 6 && t.smallBlind == 1.0 && t.bigBlind == 2.0
    && t.stacks == Repeat(100.0, 6) && !t.done && t.stage == Some(PREFLOP)
    && t.playerPots == Repeat(0.0, 6) && t.playerMaxWin == Repeat(0.0, 6)
    && t.currentRoundPot == 0.0 && t.communityPot == 0.0 && t.lastPlayerPot == 0.0
    && t.tableCards == [] && |t.deck| == 40 && Drawable(t.draws, 40, 3)
    && (forall i :: 0 <= i < 6 ==> |t.cards[i]| == 2)
    && t.cycle == EnvCycle.AfterNewHandReset(EnvCycle.OpeningCycle()).(dealerIdx := 0)
  }

  /** Every seat has chips, so the game goes on and every seat stays able to move. */
  lemma FirstCheck(draws: seq<int>)
    ensures CheckGameOver(Restarted(Opening(draws))).Ok?
    ensures var (d, over) := CheckGameOver(Restarted(Opening(draws))).value;
      !over && Checked(d, draws)
  {
    var t := Restarted(Opening(draws));
    var u := t.(cycle := EnvCycle.AfterNewHandReset(t.cycle));
    ScanStacksMeaning(u, 0);
    WithChipsRepeat(100.0, 6, 0);
    var d := ScanStacks(u, 0).value.0;
    assert d.cycle.canMove == Repeat(true, 6);
  }

  /** With all seats holding chips and enough draws in range, the deal loop of
      `_distribute_cards` from seat i on succeeds, uses two draws per seat and takes that
      many cards from the deck. */
  lemma {:induction false} DealFromOk(stacks: seq<real>, s: Shoe, i: nat)
    requires i <= |stacks| == |s.cards|
    requires forall j :: i <= j < |stacks| ==> stacks[j] > 0.0
    requires Drawable(s.draws, |s.deck|, 2 * (|stacks| - i))
    ensures DealFrom(stacks, s, i).Ok?
    ensures |DealFrom(stacks, s, i).value.deck| == |s.deck| - 2 * (|stacks| - i)
    ensures DealFrom(stacks, s, i).value.draws == s.draws[2 * (|stacks| - i)..]
    decreases |stacks| - i
  {
    if i < |stacks| {
      DealSeatOk(stacks, s, i);
      var s1 := DealSeat(stacks, s, i).value;
      DrawableDrop(s.draws, |s.deck|, 2 * (|stacks| - i), 2);
      DealFromOk(stacks, s1, i + 1);
      assert s1.draws[2 * (|stacks| - i - 1)..] == s.draws[2 * (|stacks| - i)..];
    }
  }

  /** A seat with chips draws its two cards. */
  lemma DealSeatOk(stacks: seq<real>, s: Shoe, i: nat)
    requires i < |stacks| == |s.cards| && stacks[i] > 0.0 && Drawable(s.draws, |s.deck|, 2)
    ensures DealSeat(stacks, s, i).Ok?
    ensures |DealSeat(stacks, s, i).value.deck| == |s.deck| - 2 && DealSeat(stacks, s, i).value.draws == s.draws[2..]
  {
    assert s.draws[1..][0] == s.draws[1];
    assert s.draws[1..][1..] == s.draws[2..];
  }

  /** After m draws, the rest index into the deck that is left. */
  lemma DrawableDrop(draws: seq<int>, size: int, k: nat, m: nat)
    requires Drawable(draws, size, k) && m <= k
    ensures Drawable(draws[m..], size - m, k - m)
  {
    forall j | 0 <= j < k - m ensures 0 <= draws[m..][j] < size - m - j {
      assert draws[m..][j] == draws[j + m];
    }
  }

  /** The dealer moves to seat 0 and the deal uses twelve draws. */
  lemma FirstDeal(d: Table, draws: seq<int>)
    requires Checked(d, draws) && Drawable(draws, 52, 15)
    ensures NextDealer(FreshHand(d)).Ok? && Distribute(NextDealer(FreshHand(d)).value).Ok?
    ensures Shuffled(Distribute(NextDealer(FreshHand(d)).value).value)
  {
    EnvCycle.OpeningDealer();
    var t2 := NextDealer(FreshHand(d)).value;
    assert t2.deck == CardDeck() && t2.draws == draws && t2.stacks == Repeat(100.0, 6);
    DealFromOk(t2.stacks, Shoe(t2.cards, t2.deck, t2.draws), 0);
    DrawableDrop(draws, 52, 15, 12);
  }

  /** The street's resets and its limit of 2 * 6 + 2 steps. */
  lemma PreflopStarts(t: Table)
    requires Shuffled(t)
    ensures Posted(StepLimit(RoundReset(t), 14), Repeat(100.0, 6), Repeat(0.0, 6), 0.0, 0.0, PreflopCycle())
  {
  }

  /** Seat 1 posts the small blind of 1, a raise above `min_call` 0. */
  lemma SmallBlindPosts(u: Table)
    requires Posted(u, Repeat(100.0, 6), Repeat(0.0, 6), 0.0, 0.0, PreflopCycle())
    ensures Blind(u, SMALL_BLIND).Ok?
    ensures Posted(Blind(u, SMALL_BLIND).value, Repeat(100.0, 6)[1 := 99.0], Repeat(0.0, 6)[1 := 1.0], 1.0, 1.0,
                   EnvCycle.AfterMarkRaiser(PreflopCycle().(idx := 1, counter := 1)))
  {
    SmallBlindSeat(u);
    SmallBlindPays(NextPlayer(u).value);
  }

  /** The small blind's seat. */
  lemma SmallBlindSeat(u: Table)
    requires Posted(u, Repeat(100.0, 6), Repeat(0.0, 6), 0.0, 0.0, PreflopCycle())
    ensures NextPlayer(u).Ok? && NextPlayer(u).value.currentPlayer == Some(1)
    ensures Posted(NextPlayer(u).value, Repeat(100.0, 6), Repeat(0.0, 6), 0.0, 0.0, PreflopCycle().(idx := 1, counter := 1))
  {
    EnvCycle.OpeningSeats();
  }

  /** The small blind's payment. */
  lemma SmallBlindPays(v: Table)
    requires Posted(v, Repeat(100.0, 6), Repeat(0.0, 6), 0.0, 0.0, PreflopCycle().(idx := 1, counter := 1))
    requires v.currentPlayer == Some(1)
    ensures ProcessDecision(v, SMALL_BLIND).Ok?
    ensures Posted(ProcessDecision(v, SMALL_BLIND).value, Repeat(100.0, 6)[1 := 99.0], Repeat(0.0, 6)[1 := 1.0], 1.0, 1.0,
                   EnvCycle.AfterMarkRaiser(PreflopCycle().(idx := 1, counter := 1)))
  {
  }

  /** Seat 2 posts the big blind of 2, again a raise, and `mark_bb` sets the raising window
      to step 8 and the limit to step 14. */
  lemma BigBlindPosts(u: Table)
    requires Posted(u, Repeat(100.0, 6)[1 := 99.0], Repeat(0.0, 6)[1 := 1.0], 1.0, 1.0,
                    EnvCycle.AfterMarkRaiser(PreflopCycle().(idx := 1, counter := 1)))
    ensures Blind(u, BIG_BLIND).Ok?
    ensures Posted(Blind(u, BIG_BLIND).value, Repeat(100.0, 6)[1 := 99.0][2 := 98.0], Repeat(0.0, 6)[1 := 1.0][2 := 2.0], 3.0, 2.0,
                   EnvCycle.AfterMarkBb(EnvCycle.AfterMarkRaiser(BigBlindCycle())))
  {
    BigBlindSeat(u);
    BigBlindPays(NextPlayer(u).value);
  }

  /** The cycle on the big blind's seat. */
  function BigBlindCycle(): EnvCycle.CycleState {
    EnvCycle.AfterMarkRaiser(PreflopCycle().(idx := 1, counter := 1)).(idx := 2, counter := 2)
  }

  /** The big blind's seat. */
  lemma BigBlindSeat(u: Table)
    requires Posted(u, Repeat(100.0, 6)[1 := 99.0], Repeat(0.0, 6)[1 := 1.0], 1.0, 1.0,
                    EnvCycle.AfterMarkRaiser(PreflopCycle().(idx := 1, counter := 1)))
    ensures NextPlayer(u).Ok? && NextPlayer(u).value.currentPlayer == Some(2)
    ensures Posted(NextPlayer(u).value, Repeat(100.0, 6)[1 := 99.0], Repeat(0.0, 6)[1 := 1.0], 1.0, 1.0, BigBlindCycle())
  {
    EnvCycle.OpeningSeats();
  }

  /** The big blind's payment: `mark_bb`, then the raise. */
  lemma BigBlindPays(v: Table)
    requires Posted(v, Repeat(100.0, 6)[1 := 99.0], Repeat(0.0, 6)[1 := 1.0], 1.0, 1.0, BigBlindCycle())
    requires v.currentPlayer == Some(2)
    ensures ProcessDecision(v, BIG_BLIND).Ok?
    ensures Posted(ProcessDecision(v, BIG_BLIND).value, Repeat(100.0, 6)[1 := 99.0][2 := 98.0], Repeat(0.0, 6)[1 := 1.0][2 := 2.0], 3.0, 2.0,
                   EnvCycle.AfterMarkBb(EnvCycle.AfterMarkRaiser(BigBlindCycle())))
  {
    BigBlindMarks(v);
    BigBlindContributes(Record(v, BIG_BLIND, 2));
    assert EnvCycle.AfterMarkRaiser(EnvCycle.AfterMarkBb(BigBlindCycle())) == EnvCycle.AfterMarkBb(EnvCycle.AfterMarkRaiser(BigBlindCycle()));
  }

  /** `mark_bb` comes first, and the big blind costs 2. */
  lemma BigBlindMarks(v: Table)
    requires Posted(v, Repeat(100.0, 6)[1 := 99.0], Repeat(0.0, 6)[1 := 1.0], 1.0, 1.0, BigBlindCycle())
    requires v.currentPlayer == Some(2)
    ensures ProcessDecision(v, BIG_BLIND) == Contribute(Record(v, BIG_BLIND, 2), 2, 2.0)
    ensures Posted(Record(v, BIG_BLIND, 2), Repeat(100.0, 6)[1 := 99.0], Repeat(0.0, 6)[1 := 1.0], 1.0, 1.0,
                   EnvCycle.AfterMarkBb(BigBlindCycle()))
  {
  }

  /** The payment of 2, a raise above `min_call` 1. */
  lemma BigBlindContributes(w: Table)
    requires Posted(w, Repeat(100.0, 6)[1 := 99.0], Repeat(0.0, 6)[1 := 1.0], 1.0, 1.0, EnvCycle.AfterMarkBb(BigBlindCycle()))
    ensures Contribute(w, 2, 2.0).Ok?
    ensures Posted(Contribute(w, 2, 2.0).value, Repeat(100.0, 6)[1 := 99.0][2 := 98.0], Repeat(0.0, 6)[1 := 1.0][2 := 2.0], 3.0, 2.0,
                   EnvCycle.AfterMarkRaiser(EnvCycle.AfterMarkBb(BigBlindCycle())))
  {
  }

  /** Seat 3 (utg) acts first. */
  lemma UtgFirst(w: Table)
    requires Posted(w, Repeat(100.0, 6)[1 := 99.0][2 := 98.0], Repeat(0.0, 6)[1 := 1.0][2 := 2.0], 3.0, 2.0,
                    EnvCycle.AfterMarkBb(EnvCycle.AfterMarkRaiser(BigBlindCycle())))
    ensures NextPlayer(w).Ok? && NextPlayer(w).value.currentPlayer == Some(3)
    ensures Bets(NextPlayer(w).value, Repeat(100.0, 6)[1 := 99.0][2 := 98.0], Repeat(0.0, 6)[1 := 1.0][2 := 2.0], 3.0,
                 Street(3, 3, Active(0), Active(0), Folded(0), false))
  {
    EnvCycle.OpeningSeats();
  }

  /** The blinds leave 99 with the small blind and 98 with the big blind. */
  lemma BlindsPaid()
    ensures Repeat(100.0, 6)[1 := 99.0][2 := 98.0] == Stacks(0)
    ensures Repeat(0.0, 6)[1 := 1.0][2 := 2.0] == Pots(0)
  {
  }

  /** The preflop part of `_initiate_round`: both blinds, and utg to act. */
  lemma BlindsPosted(u: Table)
    requires Posted(u, Repeat(100.0, 6), Repeat(0.0, 6), 0.0, 0.0, PreflopCycle())
    ensures Blinds(u).Ok? && Blinds(u).value.currentPlayer == Some(3)
    ensures Bets(Blinds(u).value, Stacks(0), Pots(0), 3.0, Street(3, 3, Active(0), Active(0), Folded(0), false))
  {
    SmallBlindPosts(u);
    var v := Blind(u, SMALL_BLIND).value;
    BigBlindPosts(v);
    UtgFirst(Blind(v, BIG_BLIND).value);
    BlindsPaid();
  }

  /** `_start_new_hand` after the game-over check: the dealer on seat 0, two cards each,
      the blinds, and utg to act. */
  lemma HandDealt(d: Table, draws: seq<int>)
    requires Checked(d, draws) && Drawable(draws, 52, 15)
    ensures DealHand(d).Ok? && DealHand(d).value.currentPlayer == Some(3)
    ensures Bets(DealHand(d).value, Stacks(0), Pots(0), 3.0, Street(3, 3, Active(0), Active(0), Folded(0), false))
  {
    FirstDeal(d, draws);
    PreflopPosted(Distribute(NextDealer(FreshHand(d)).value).value);
  }

  /** The preflop `_initiate_round` of the first hand. */
  lemma PreflopPosted(t: Table)
    requires Shuffled(t)
    ensures InitiateRound(t).Ok? && InitiateRound(t).value.currentPlayer == Some(3)
    ensures Bets(InitiateRound(t).value, Stacks(0), Pots(0), 3.0, Street(3, 3, Active(0), Active(0), Folded(0), false))
  {
    PreflopStarts(t);
    BlindsPosted(StepLimit(RoundReset(t), 14));
  }

  /** `reset()` on the six-seat table: two cards each, the blinds in, and utg (seat 3) to
      act with CALL and FOLD offered. */
  lemma ResetOpens(draws: seq<int>)
    requires Drawable(draws, 52, 15)
    ensures Reset(Opening(draws)).Ok?
    ensures Turn(Reset(Opening(draws)).value, Stacks(0), Pots(0), 3.0, Street(3, 3, Active(0), Active(0), Folded(0), false), 3)
  {
    FirstCheck(draws);
    var d := CheckGameOver(Restarted(Opening(draws))).value.0;
    HandDealt(d, draws);
    OffersCallAndFold(DealHand(d).value, Stacks(0), Pots(0), 3.0, Street(3, 3, Active(0), Active(0), Folded(0), false), 3);
  }

  /** `_get_environment` on a preflop table with chips in the street pot and a seat to act
      offers that seat CALL and FOLD, and changes nothing else the scenario follows. */
  lemma OffersCallAndFold(t: Table, stacks: seq<real>, pots: seq<real>, street: real, c: EnvCycle.CycleState, seat: nat)
    requires Bets(t, stacks, pots, street, c) && t.currentPlayer == Some(seat) && street > 0.0 && c.lastRaiserStep.Some?
    ensures GetEnvironment(t).Ok? && Turn(GetEnvironment(t).value, stacks, pots, street, c, seat)
  {
    GetEnvironmentMeaning(t);
  }

  /** When the cycle returns False with two seats or more alive, `_next_player` ends the
      street and starts the next. */
  lemma NextPlayerEnds(t: Table, c: EnvCycle.CycleState)
    requires WellFormed(t) && EnvCycle.AfterNextPlayer(t.cycle, 1) == Ok((c, None)) && CountTrue(c.alive) >= 2
    ensures var t1 := t.(cycle := c, currentPlayer := None);
      WellFormed(t1) && (EndRound(t1).Ok? ==> NextPlayer(t) == InitiateRound(EndRound(t1).value))
  {
    CycleStepWellFormed(t.cycle);
  }
}
