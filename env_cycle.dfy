/** The seat rotation the table uses: `PlayerCycle` of gym_env/env.py. The list it cycles
    over is the table's players, seat i at position i, so the model keeps only its length
    and returns seat numbers where the source returns list items. */
module EnvCycle {
  import opened Common
  import opened Seats

  /** Every attribute of a `PlayerCycle`. The optional settings are None until set, and
      `folder` is None between the constructor and the first `new_hand_reset` after it. */
  datatype CycleState = CycleState(
    size: nat,
    startIdx: int,
    maxStepsTotal: Option<int>,
    lastRaiserStep: Option<int>,
    maxStepsAfterRaiser: Option<int>,
    lastRaiser: Option<int>,
    counter: int,
    secondRound: bool,
    idx: int,
    dealerIdx: int,
    canMove: seq<bool>,
    alive: seq<bool>,
    outOfCash: seq<bool>,
    checkers: int,
    folder: Option<seq<bool>>)

  /** The per-seat lists all have one entry per seat. */
  predicate WellFormed(c: CycleState) {
    && |c.canMove| == c.size
    && |c.alive| == c.size
    && |c.outOfCash| == c.size
    && (c.folder.Some? ==> |c.folder.value| == c.size)
  }

  /** `__init__`: it calls `new_hand_reset` and then sets `folder` back to None. */
  function Initial(size: nat, startIdx: int, dealerIdx: int, maxStepsTotal: Option<int>,
                   lastRaiserStep: Option<int>, maxStepsAfterRaiser: Option<int>): (c: CycleState)
    ensures WellFormed(c)
  {
    CycleState(size, startIdx, maxStepsTotal, lastRaiserStep, maxStepsAfterRaiser, None, 0, false,
      startIdx, dealerIdx, Repeat(true, size), Repeat(true, size), Repeat(false, size), 0, None)
  }

  /** `new_hand_reset`. */
  function AfterNewHandReset(c: CycleState): (r: CycleState)
    requires WellFormed(c)
    ensures WellFormed(r)
  {
    c.(idx := c.startIdx, canMove := Repeat(true, c.size), outOfCash := Repeat(false, c.size),
       folder := Some(Repeat(false, c.size)), counter := 0)
  }

  /** `new_round_reset`. */
  function AfterNewRoundReset(c: CycleState): (r: CycleState)
    requires WellFormed(c)
    ensures WellFormed(r)
  {
    c.(counter := 0, secondRound := false, idx := c.dealerIdx, lastRaiserStep := Some(c.size), checkers := 0)
  }

  /** `self.last_raiser if self.last_raiser else 0`: a raise marked at step 0 is no raise. */
  function RaiserReference(lastRaiser: Option<int>): int {
    if Truthy(lastRaiser) then lastRaiser.value else 0
  }

  /** The number of seats that can still move or went all in: numpy `+` on the two flag
      arrays is a logical or. */
  function Eligible(c: CycleState): nat
    requires WellFormed(c)
  {
    CountTrue(OrSeq(c.canMove, c.outOfCash))
  }

  /** `next_player(step)`: the state it leaves and the seat it returns (None for False). */
  function AfterNextPlayer(c: CycleState, step: int): Result<(CycleState, Option<nat>)>
    requires WellFormed(c)
  {
    if Eligible(c) < 2 then Ok((c, None))
    else
      var counter := c.counter + step;
      var moved := AfterNextPlayerMoved(c, step);
      if Truthy(c.maxStepsTotal) && counter >= c.maxStepsTotal.value then Ok((moved, None))
      else if Truthy(c.maxStepsAfterRaiser)
           && counter > c.maxStepsAfterRaiser.value + RaiserReference(c.lastRaiser) then Ok((moved, None))
      else if c.checkers == CountTrue(c.alive) then Ok((moved, None))
      else AfterSkip(moved)
  }

  /** The state `next_player` has reached once it has moved, before its tests. */
  function AfterNextPlayerMoved(c: CycleState, step: int): (m: CycleState)
    requires WellFormed(c) && c.size > 0
    ensures WellFormed(m) && 0 <= m.idx < m.size
  {
    var counter := c.counter + step;
    c.(idx := (c.idx + step) % c.size, counter := counter, secondRound := counter > c.size || c.secondRound)
  }

  /** The `while True` loop of `next_player` from the seat it moved to, then
      `update_alive` and the seat. */
  function AfterSkip(c: CycleState): Result<(CycleState, Option<nat>)>
    requires WellFormed(c) && 0 <= c.idx < c.size
  {
    var skip :- Skip(c.canMove, c.idx, c.counter, c.maxStepsTotal);
    var last := c.(idx := Advance(c.idx, skip.0, c.size), counter := c.counter + skip.0);
    if skip.1 == LimitReached then Ok((last, None))
    else Ok((last.(alive := OrSeq(last.canMove, last.outOfCash)), Some(last.idx)))
  }

  /** `next_dealer`: with no seats the modulo divides by zero. */
  function AfterNextDealer(c: CycleState): Result<(CycleState, nat)>
    requires WellFormed(c)
  {
    if c.size == 0 then Err(ZeroDivisionError)
    else
      var seat :- NextSeat(c.canMove, c.dealerIdx);
      Ok((c.(dealerIdx := seat), seat))
  }

  /** `set_idx`. */
  function AfterSetIdx(c: CycleState, idx: int): CycleState {
    c.(idx := idx)
  }

  /** `deactivate_player(idx)`: asserts the seat could still move, then clears its flag. */
  function AfterDeactivatePlayer(c: CycleState, idx: int): (r: Result<CycleState>)
    requires WellFormed(c)
    ensures r.Ok? ==> WellFormed(r.value)
  {
    var i :- PyPos(c.size, idx);
    if !c.canMove[i] then Err(AssertionError)
    else Ok(c.(canMove := c.canMove[i := false]))
  }

  /** `deactivate_current`. */
  function AfterDeactivateCurrent(c: CycleState): (r: Result<CycleState>)
    requires WellFormed(c)
    ensures r.Ok? ==> WellFormed(r.value)
  {
    AfterDeactivatePlayer(c, c.idx)
  }

  /** `mark_folder`: item assignment on a None `folder` raises TypeError. */
  function AfterMarkFolder(c: CycleState): (r: Result<CycleState>)
    requires WellFormed(c)
    ensures r.Ok? ==> WellFormed(r.value)
  {
    if c.folder.None? then Err(TypeError)
    else
      var i :- PyPos(c.size, c.idx);
      Ok(c.(folder := Some(c.folder.value[i := true])))
  }

  /** `mark_raiser`. */
  function AfterMarkRaiser(c: CycleState): CycleState {
    c.(lastRaiser := Some(c.counter))
  }

  /** `mark_checker`. */
  function AfterMarkChecker(c: CycleState): CycleState {
    c.(checkers := c.checkers + 1)
  }

  /** `mark_out_of_cash_but_contributed`: sets the flag, then deactivates the seat. */
  function AfterMarkOutOfCash(c: CycleState): (r: Result<CycleState>)
    requires WellFormed(c)
    ensures r.Ok? ==> WellFormed(r.value)
  {
    var i :- PyPos(c.size, c.idx);
    AfterDeactivateCurrent(c.(outOfCash := c.outOfCash[i := true]))
  }

  /** `mark_bb`. */
  function AfterMarkBb(c: CycleState): CycleState {
    c.(lastRaiserStep := Some(c.counter + c.size), maxStepsTotal := Some(c.counter + c.size * 2))
  }

  /** `is_raising_allowed`: comparing with a None `last_raiser_step` raises TypeError. */
  function IsRaisingAllowed(c: CycleState): Result<bool> {
    if c.lastRaiserStep.None? then Err(TypeError) else Ok(c.counter <= c.lastRaiserStep.value)
  }

  /** `update_alive`. */
  function AfterUpdateAlive(c: CycleState): (r: CycleState)
    requires WellFormed(c)
    ensures WellFormed(r)
  {
    c.(alive := OrSeq(c.canMove, c.outOfCash))
  }

  /** `get_potential_winners`: seats that can move or went all in, and did not fold. numpy
      negates a None `folder` to True, so then nobody counts as folded. */
  function PotentialWinners(c: CycleState): (w: seq<bool>)
    requires WellFormed(c)
    ensures |w| == c.size
  {
    seq(c.size, i requires 0 <= i < c.size =>
      (c.canMove[i] || c.outOfCash[i]) && !(c.folder.Some? && c.folder.value[i]))
  }

  // ---------------------------------------------------------------------------
  // What the operations promise.

  /** `next_player` gives up, leaving everything unchanged, when fewer than two seats can
      still move or are all in. */
  lemma NextPlayerTooFew(c: CycleState, step: int)
    requires WellFormed(c) && Eligible(c) < 2
    ensures AfterNextPlayer(c, step) == Ok((c, None))
  {
  }

  /** Otherwise it moves `step` seats and `step` steps, and returns False once the counter
      reaches `max_steps_total` (>=), once it exceeds `max_steps_after_raiser` plus the
      raiser's step (a raise marked at step 0 counts as none), or when as many seats have
      checked as are alive. */
  lemma NextPlayerStops(c: CycleState, step: int)
    requires WellFormed(c) && Eligible(c) >= 2
    requires || (Truthy(c.maxStepsTotal) && c.counter + step >= c.maxStepsTotal.value)
             || (Truthy(c.maxStepsAfterRaiser)
                 && c.counter + step > c.maxStepsAfterRaiser.value
                    + (if c.lastRaiser.Some? && c.lastRaiser.value != 0 then c.lastRaiser.value else 0))
             || c.checkers == CountTrue(c.alive)
    ensures AfterNextPlayer(c, step).Ok?
    ensures var (d, seat) := AfterNextPlayer(c, step).value;
      && seat.None?
      && d.idx == (c.idx + step) % c.size && d.counter == c.counter + step
      && d.canMove == c.canMove && d.alive == c.alive
  {
  }

  /** When it returns a seat, that seat can move, lies in [0, n), and is the first one that
      can move from (idx + step) mod n on; the counter has grown by `step` plus the seats
      skipped, and `alive` is refreshed. The loop spins forever only when no seat can move
      and `max_steps_total` is not set. */
  lemma NextPlayerSeat(c: CycleState, step: int)
    requires WellFormed(c) && Eligible(c) >= 2
    requires AfterNextPlayer(c, step).Ok? && AfterNextPlayer(c, step).value.1.Some?
    ensures var (d, seat) := AfterNextPlayer(c, step).value;
      var start := (c.idx + step) % c.size;
      && seat.value == d.idx && 0 <= d.idx < c.size && c.canMove[d.idx]
      && (exists k :: 0 <= k < c.size && d.idx == Advance(start, k, c.size)
            && d.counter == c.counter + step + k
            && forall j {:trigger c.canMove[Advance(start, j, c.size)]} :: 0 <= j < k ==> !c.canMove[Advance(start, j, c.size)])
      && d.alive == OrSeq(c.canMove, c.outOfCash)
      && d.canMove == c.canMove && d.outOfCash == c.outOfCash && d.folder == c.folder
  {
    var moved := AfterNextPlayerMoved(c, step);
    assert moved.idx == (c.idx + step) % c.size && moved.counter == c.counter + step;
    assert moved.canMove == c.canMove && moved.outOfCash == c.outOfCash && moved.folder == c.folder;
    NextPlayerSkips(c, step);
    SkipSeat(moved);
  }

  /** A seat comes back only from the skip loop: none of the three stops applied. */
  lemma NextPlayerSkips(c: CycleState, step: int)
    requires WellFormed(c) && Eligible(c) >= 2
    requires AfterNextPlayer(c, step).Ok? && AfterNextPlayer(c, step).value.1.Some?
    ensures !(Truthy(c.maxStepsTotal) && c.counter + step >= c.maxStepsTotal.value)
    ensures !(Truthy(c.maxStepsAfterRaiser)
              && c.counter + step > c.maxStepsAfterRaiser.value + RaiserReference(c.lastRaiser))
    ensures c.checkers != CountTrue(c.alive)
    ensures AfterNextPlayer(c, step) == AfterSkip(AfterNextPlayerMoved(c, step))
  {
  }

  /** When none of the three stops applies, `next_player` runs the skip loop. */
  lemma NextPlayerGoesOn(c: CycleState, step: int)
    requires WellFormed(c) && Eligible(c) >= 2
    requires !(Truthy(c.maxStepsTotal) && c.counter + step >= c.maxStepsTotal.value)
    requires !(Truthy(c.maxStepsAfterRaiser)
               && c.counter + step > c.maxStepsAfterRaiser.value + RaiserReference(c.lastRaiser))
    requires c.checkers != CountTrue(c.alive)
    ensures AfterNextPlayer(c, step) == AfterSkip(AfterNextPlayerMoved(c, step))
  {
  }

  /** The seat the skip loop stops on can move and is the first such seat from where it
      started. */
  lemma SkipSeat(c: CycleState)
    requires WellFormed(c) && 0 <= c.idx < c.size
    requires AfterSkip(c).Ok? && AfterSkip(c).value.1.Some?
    ensures var (d, seat) := AfterSkip(c).value;
      && seat.value == d.idx && 0 <= d.idx < c.size && c.canMove[d.idx]
      && (exists k :: 0 <= k < c.size && d.idx == Advance(c.idx, k, c.size)
            && d.counter == c.counter + k
            && forall j {:trigger c.canMove[Advance(c.idx, j, c.size)]} :: 0 <= j < k ==> !c.canMove[Advance(c.idx, j, c.size)])
      && d.alive == OrSeq(c.canMove, c.outOfCash)
      && d.canMove == c.canMove && d.outOfCash == c.outOfCash && d.folder == c.folder
  {
    SkipMeaning(c.canMove, c.idx, c.counter, c.maxStepsTotal);
    var k := Skip(c.canMove, c.idx, c.counter, c.maxStepsTotal).value.0;
    assert AfterSkip(c).value.0.idx == Advance(c.idx, k, c.size);
  }

  /** The skip loop never returns when no seat can move and no step limit is set. */
  lemma NextPlayerNeverReturns(c: CycleState, step: int)
    requires WellFormed(c) && Eligible(c) >= 2 && !Truthy(c.maxStepsTotal)
    requires !(Truthy(c.maxStepsAfterRaiser)
               && c.counter + step > c.maxStepsAfterRaiser.value + RaiserReference(c.lastRaiser))
    requires c.checkers != CountTrue(c.alive)
    ensures AfterNextPlayer(c, step).Err? <==> forall i :: 0 <= i < c.size ==> !c.canMove[i]
  {
    NextPlayerGoesOn(c, step);
    var m := AfterNextPlayerMoved(c, step);
    assert m.canMove == c.canMove && m.maxStepsTotal == c.maxStepsTotal;
    SkipMeaning(m.canMove, m.idx, m.counter, m.maxStepsTotal);
  }

  /** `deactivate_player` fails its assertion on a seat already out, and otherwise clears
      that seat's flag and nothing else. */
  lemma DeactivateOnlyThatSeat(c: CycleState, i: nat)
    requires WellFormed(c) && i < c.size
    ensures !c.canMove[i] ==> AfterDeactivatePlayer(c, i) == Err(AssertionError)
    ensures c.canMove[i] ==> AfterDeactivatePlayer(c, i).Ok?
    ensures c.canMove[i] ==>
      var d := AfterDeactivatePlayer(c, i).value;
      && !d.canMove[i]
      && (forall j :: 0 <= j < c.size && j != i ==> d.canMove[j] == c.canMove[j])
      && d == c.(canMove := d.canMove)
  {
  }

  /** An all-in seat is marked and deactivated, so it stays eligible to win but no longer
      moves. */
  lemma OutOfCashMarked(c: CycleState)
    requires WellFormed(c) && 0 <= c.idx < c.size && c.canMove[c.idx]
    ensures AfterMarkOutOfCash(c).Ok?
    ensures var d := AfterMarkOutOfCash(c).value;
      && d.outOfCash[c.idx] && !d.canMove[c.idx]
      && d == c.(outOfCash := c.outOfCash[c.idx := true], canMove := c.canMove[c.idx := false])
  {
  }

  /** A fold clears the seat's move flag and marks it as folded, so it cannot win. */
  lemma FoldedCannotWin(c: CycleState)
    requires WellFormed(c) && 0 <= c.idx < c.size && c.canMove[c.idx] && c.folder.Some?
    ensures AfterDeactivateCurrent(c).Ok?
    ensures AfterMarkFolder(AfterDeactivateCurrent(c).value).Ok?
    ensures var d := AfterMarkFolder(AfterDeactivateCurrent(c).value).value;
      !d.canMove[c.idx] && !PotentialWinners(d)[c.idx]
  {
  }

  /** After `mark_bb`, raising stays allowed for one more circle of the table, and the
      street ends after two. */
  lemma BigBlindWindow(c: CycleState, later: int)
    ensures IsRaisingAllowed(AfterMarkBb(c)) == Ok(true)
    ensures IsRaisingAllowed(AfterMarkBb(c).(counter := later)).Ok?
    ensures IsRaisingAllowed(AfterMarkBb(c).(counter := later)).value <==> later <= c.counter + c.size
    ensures AfterMarkBb(c).maxStepsTotal == Some(c.counter + 2 * c.size)
  {
  }

  /** After `new_hand_reset` every seat can move, none is all in or folded, and the counter
      is back at 0 on the start seat. */
  lemma NewHandResetMeaning(c: CycleState)
    requires WellFormed(c)
    ensures var d := AfterNewHandReset(c);
      && d.counter == 0 && d.idx == c.startIdx && d.folder.Some?
      && (forall i :: 0 <= i < c.size ==> d.canMove[i] && !d.outOfCash[i] && !d.folder.value[i])
      && (forall i :: 0 <= i < c.size ==> PotentialWinners(d)[i])
  {
  }

  /** When nothing stops it, `next_player` returns the first seat that can move k seats
      past the one `step` places on. */
  lemma NextPlayerAfterGap(c: CycleState, step: int, start: nat, k: nat)
    requires WellFormed(c) && Eligible(c) >= 2 && start == (c.idx + step) % c.size
    requires !(Truthy(c.maxStepsTotal) && c.counter + step + k >= c.maxStepsTotal.value)
    requires !(Truthy(c.maxStepsAfterRaiser)
               && c.counter + step > c.maxStepsAfterRaiser.value + RaiserReference(c.lastRaiser))
    requires c.checkers != CountTrue(c.alive)
    requires k < c.size && c.canMove[Advance(start, k, c.size)]
    requires forall j {:trigger c.canMove[Advance(start, j, c.size)]} :: 0 <= j < k ==> !c.canMove[Advance(start, j, c.size)]
    ensures var seat := Advance(start, k, c.size);
      AfterNextPlayer(c, step) == Ok((c.(idx := seat, counter := c.counter + step + k,
        secondRound := c.counter + step > c.size || c.secondRound,
        alive := OrSeq(c.canMove, c.outOfCash)), Some(seat)))
  {
    var moved := AfterNextPlayerMoved(c, step);
    var seat, alive := Advance(start, k, c.size), OrSeq(c.canMove, c.outOfCash);
    MovedFields(c, step, seat, c.counter + step + k, alive);
    SkipFound(c.canMove, start, c.counter + step, c.maxStepsTotal, k);
    NextPlayerFound(c, step, k, seat);
  }

  /** The skip loop finding a seat k places past the moved-to seat is what `next_player`
      returns, when nothing stops it first. */
  lemma NextPlayerFound(c: CycleState, step: int, k: nat, seat: nat)
    requires WellFormed(c) && Eligible(c) >= 2
    requires !(Truthy(c.maxStepsTotal) && c.counter + step >= c.maxStepsTotal.value)
    requires !(Truthy(c.maxStepsAfterRaiser)
               && c.counter + step > c.maxStepsAfterRaiser.value + RaiserReference(c.lastRaiser))
    requires c.checkers != CountTrue(c.alive)
    requires var m := AfterNextPlayerMoved(c, step);
      Skip(m.canMove, m.idx, m.counter, m.maxStepsTotal) == Ok((k, Found)) && seat == Advance(m.idx, k, m.size)
    ensures AfterNextPlayer(c, step) == Ok((c.(idx := seat, counter := c.counter + step + k,
        secondRound := c.counter + step > c.size || c.secondRound,
        alive := OrSeq(c.canMove, c.outOfCash)), Some(seat)))
  {
    var moved := AfterNextPlayerMoved(c, step);
    var alive := OrSeq(c.canMove, c.outOfCash);
    NextPlayerGoesOn(c, step);
    MovedFields(c, step, seat, c.counter + step + k, alive);
    SkipFoundState(moved, k, seat, c.counter + step + k, alive);
  }

  /** What moving changes, and what it leaves for the skip loop to set. */
  lemma MovedFields(c: CycleState, step: int, seat: nat, counter: int, alive: seq<bool>)
    requires WellFormed(c) && c.size > 0
    ensures var m := AfterNextPlayerMoved(c, step);
      && m.idx == (c.idx + step) % c.size && m.counter == c.counter + step && m.size == c.size
      && m.canMove == c.canMove && m.outOfCash == c.outOfCash && m.maxStepsTotal == c.maxStepsTotal
      && m.(idx := seat, counter := counter, alive := alive)
         == c.(idx := seat, counter := counter, secondRound := c.counter + step > c.size || c.secondRound, alive := alive)
  {
  }

  /** The skip loop stopping on a seat k places on leaves the cycle there, alive refreshed. */
  lemma SkipFoundState(c: CycleState, k: nat, seat: nat, counter: int, alive: seq<bool>)
    requires WellFormed(c) && 0 <= c.idx < c.size
    requires Skip(c.canMove, c.idx, c.counter, c.maxStepsTotal) == Ok((k, Found))
    requires seat == Advance(c.idx, k, c.size) && counter == c.counter + k && alive == OrSeq(c.canMove, c.outOfCash)
    ensures AfterSkip(c) == Ok((c.(idx := seat, counter := counter, alive := alive), Some(seat)))
  {
  }

  /** The cycle of tests/test_gym_env.py `test_cycle_max_rounds`: four players, start
      seat 2, `max_steps_total` 5. */
  function MaxRoundsCycle(): (c: CycleState)
    ensures WellFormed(c)
  {
    Initial(4, 2, 0, Some(5), None, None)
  }

  /** Its first three calls return seats 3, 0 and 1. */
  lemma MaxRoundsFirstCalls()
    ensures var c0 := MaxRoundsCycle();
      var c1 := c0.(idx := 3, counter := 1);
      var c2 := c1.(idx := 0, counter := 2);
      && AfterNextPlayer(c0, 1) == Ok((c1, Some(3)))
      && AfterNextPlayer(c1, 1) == Ok((c2, Some(0)))
      && AfterNextPlayer(c2, 1) == Ok((c2.(idx := 1, counter := 3), Some(1)))
  {
    var c0 := MaxRoundsCycle();
    var c1 := c0.(idx := 3, counter := 1);
    MaxRoundsCall(c0, 3);
    MaxRoundsCall(c1, 0);
    MaxRoundsCall(c1.(idx := 0, counter := 2), 1);
  }

  /** A call with step 1 on the test's cycle, before the limit, moves to the next seat. */
  lemma MaxRoundsCall(c: CycleState, seat: nat)
    requires c == MaxRoundsCycle().(idx := c.idx, counter := c.counter)
    requires 0 <= c.idx < 4 && 0 <= c.counter < 3 && seat == (c.idx + 1) % 4
    ensures AfterNextPlayer(c, 1) == Ok((c.(idx := seat, counter := c.counter + 1), Some(seat)))
  {
    AllSet(4);
    NextPlayerAfterGap(c, 1, seat, 0);
  }

  /** The fourth call, with step 2, brings the counter to 5 and returns False where the
      test expects seat 3 again (the strict limit of gym_env/cycle.py would return it); the
      fifth leaves the counter at 6 and returns False. */
  lemma MaxRoundsLastCalls()
    ensures var c3 := MaxRoundsCycle().(idx := 1, counter := 3);
      var c4 := c3.(idx := 3, counter := 5, secondRound := true);
      && AfterNextPlayer(c3, 2) == Ok((c4, None))
      && AfterNextPlayer(c4, 1) == Ok((c4.(idx := 0, counter := 6), None))
  {
    var c3 := MaxRoundsCycle().(idx := 1, counter := 3);
    AllSet(4);
    NextPlayerStops(c3, 2);
    NextPlayerStops(c3.(idx := 3, counter := 5, secondRound := true), 1);
  }

  /** The cycle of tests/test_gym_env.py `test_cycle_forever`: six players with the
      default settings. */
  function ForeverCycle(): (c: CycleState)
    ensures WellFormed(c) && c.size == 6 && c.outOfCash == Repeat(false, 6) && c.checkers == 0
    ensures c.maxStepsTotal.None? && c.maxStepsAfterRaiser.None?
  {
    Initial(6, 0, 0, None, None, None)
  }

  /** The flags after seat 3 (utg) is deactivated. */
  function ForeverFlags(): (r: seq<bool>)
    ensures |r| == 6
    ensures CountTrue(r) == 5
    ensures OrSeq(r, Repeat(false, 6)) == r
  {
    AllSet(6);
    CountTrueClear(Repeat(true, 6), 3);
    OrNothing(Repeat(true, 6)[3 := false]);
    Repeat(true, 6)[3 := false]
  }

  /** The flags after seats 0, 1 and 2 are deactivated as well. */
  function ForeverLateFlags(): (r: seq<bool>)
    ensures |r| == 6
    ensures CountTrue(r) == 2
    ensures forall i :: 0 <= i < 6 ==> r[i] == (i >= 4)
    ensures OrSeq(r, Repeat(false, 6)) == r
  {
    var f := ForeverFlags();
    CountTrueClear(f, 0);
    CountTrueClear(f[0 := false], 1);
    CountTrueClear(f[0 := false][1 := false], 2);
    OrNothing(f[0 := false][1 := false][2 := false]);
    f[0 := false][1 := false][2 := false]
  }

  /** The first two calls return seats 1 (sb) and 3 (utg). */
  lemma ForeverOpening()
    ensures var c0 := ForeverCycle();
      && AfterNextPlayer(c0, 1) == Ok((c0.(idx := 1, counter := 1), Some(1)))
      && AfterNextPlayer(c0.(idx := 1, counter := 1), 2) == Ok((c0.(idx := 3, counter := 3), Some(3)))
  {
    var c0 := ForeverCycle();
    AllSet(6);
    ForeverCall(c0, 1, 1);
    ForeverCall(c0.(idx := 1, counter := 1), 2, 3);
  }

  /** A call on the test's cycle, before the second round, that lands on a seat still able
      to move returns that seat. */
  lemma ForeverCall(c: CycleState, step: nat, seat: nat)
    requires c == ForeverCycle().(canMove := c.canMove, alive := c.alive, idx := c.idx, counter := c.counter,
                                  secondRound := c.secondRound)
    requires |c.canMove| == 6 && c.alive == c.canMove && CountTrue(c.canMove) >= 2
    requires 0 <= c.idx < 6 && seat == (c.idx + step) % 6 && c.canMove[seat]
    ensures AfterNextPlayer(c, step)
      == Ok((c.(idx := seat, counter := c.counter + step, secondRound := c.counter + step > 6 || c.secondRound), Some(seat)))
  {
    OrNothing(c.canMove);
    NextPlayerAfterGap(c, step, seat, 0);
  }

  /** Deactivating the current seat 3 leaves the other five able to move. */
  lemma ForeverDeactivate()
    ensures var c := ForeverCycle().(idx := 3, counter := 3);
      AfterDeactivateCurrent(c) == Ok(c.(canMove := ForeverFlags()))
  {
  }

  /** The call with step 6 lands on seat 3 again, skips it and returns seat 4 (utg1); it is
      more than a full round, so the second round has begun. */
  lemma ForeverSkipsDeactivated()
    ensures var c := ForeverCycle().(idx := 3, counter := 3, canMove := ForeverFlags());
      AfterNextPlayer(c, 6) == Ok((c.(idx := 4, counter := 10, secondRound := true, alive := ForeverFlags()), Some(4)))
  {
    var c := ForeverCycle().(idx := 3, counter := 3, canMove := ForeverFlags());
    NextPlayerAfterGap(c, 6, 3, 1);
  }

  /** The next two calls return seats 5 (utg2) and 0 (dealer). */
  lemma ForeverSecondRound()
    ensures var c := ForeverCycle().(canMove := ForeverFlags(), idx := 4, counter := 10,
                                     secondRound := true, alive := ForeverFlags());
      && AfterNextPlayer(c, 1) == Ok((c.(idx := 5, counter := 11), Some(5)))
      && AfterNextPlayer(c.(idx := 5, counter := 11), 1) == Ok((c.(idx := 0, counter := 12), Some(0)))
  {
    var c := ForeverCycle().(canMove := ForeverFlags(), idx := 4, counter := 10,
                             secondRound := true, alive := ForeverFlags());
    ForeverCall(c, 1, 5);
    ForeverCall(c.(idx := 5, counter := 11), 1, 0);
  }

  /** Deactivating seats 0, 1 and 2 by index leaves seats 4 and 5. */
  lemma ForeverDeactivateThree()
    ensures var c := ForeverCycle().(canMove := ForeverFlags(), idx := 0, counter := 12,
                                     secondRound := true, alive := ForeverFlags());
      && AfterDeactivatePlayer(c, 0) == Ok(c.(canMove := ForeverFlags()[0 := false]))
      && AfterDeactivatePlayer(c.(canMove := ForeverFlags()[0 := false]), 1)
         == Ok(c.(canMove := ForeverFlags()[0 := false][1 := false]))
      && AfterDeactivatePlayer(c.(canMove := ForeverFlags()[0 := false][1 := false]), 2)
         == Ok(c.(canMove := ForeverLateFlags()))
  {
  }

  /** The call with step 2 reaches seat 2, skips seats 2 and 3 and returns seat 4 (utg1). */
  lemma ForeverFinalSeat()
    ensures var c := ForeverCycle().(canMove := ForeverLateFlags(), idx := 0, counter := 12,
                                     secondRound := true, alive := ForeverFlags());
      AfterNextPlayer(c, 2) == Ok((c.(idx := 4, counter := 16, alive := ForeverLateFlags()), Some(4)))
  {
    var c := ForeverCycle().(canMove := ForeverLateFlags(), idx := 0, counter := 12,
                             secondRound := true, alive := ForeverFlags());
    ForeverLateCall(c);
  }

  /** The late call on any cycle of the test that holds the late flags and the earlier
      alive flags. */
  lemma ForeverLateCall(c: CycleState)
    requires c == ForeverCycle().(canMove := c.canMove, alive := c.alive, idx := c.idx, counter := c.counter,
                                  secondRound := c.secondRound)
    requires c.canMove == ForeverLateFlags() && c.alive == ForeverFlags() && c.idx == 0 && c.counter == 12
    requires c.secondRound
    ensures AfterNextPlayer(c, 2) == Ok((c.(idx := 4, counter := 16, alive := ForeverLateFlags()), Some(4)))
  {
    forall j | 0 <= j < 2 ensures !c.canMove[Advance(2, j, 6)] {
      AdvanceOnce(2, j, 6);
    }
    assert c.canMove[Advance(2, 2, 6)] by {
      AdvanceOnce(2, 2, 6);
    }
    ModNext(c.idx + 1, c.size);
    NextPlayerAfterGap(c, 2, 2, 2);
  }

  /** The cycle `reset()` builds for the six players of tests/test_gym_env.py
      `test_init_env`: dealer -1 and at most six steps after a raiser. */
  function OpeningCycle(): (c: CycleState)
    ensures WellFormed(c) && c.size == 6
  {
    Initial(6, 0, -1, None, None, Some(6))
  }

  /** The first hand: after `new_hand_reset`, `next_dealer` puts the dealer on seat 0. */
  lemma OpeningDealer()
    ensures var c := AfterNewHandReset(OpeningCycle());
      AfterNextDealer(c) == Ok((c.(dealerIdx := 0), 0))
  {
  }

  /** The preflop street of that hand, with the dealer on seat 0 and 2n + 2 = 14 steps
      allowed: the small blind is seat 1 and the big blind seat 2, each blind above
      `min_call` marking a raiser, and after `mark_bb` seat 3 (utg) acts first. */
  lemma OpeningSeats()
    ensures var s0 := AfterNewRoundReset(AfterNewHandReset(OpeningCycle()).(dealerIdx := 0)).(maxStepsTotal := Some(14));
      var s1 := s0.(idx := 1, counter := 1);
      var s2 := AfterMarkRaiser(s1).(idx := 2, counter := 2);
      var s3 := AfterMarkBb(AfterMarkRaiser(s2));
      && AfterNextPlayer(s0, 1) == Ok((s1, Some(1)))
      && AfterNextPlayer(AfterMarkRaiser(s1), 1) == Ok((s2, Some(2)))
      && AfterNextPlayer(s3, 1) == Ok((s3.(idx := 3, counter := 3), Some(3)))
  {
    var s0 := AfterNewRoundReset(AfterNewHandReset(OpeningCycle()).(dealerIdx := 0)).(maxStepsTotal := Some(14));
    var s1 := s0.(idx := 1, counter := 1);
    var s2 := AfterMarkRaiser(s1).(idx := 2, counter := 2);
    AllSet(6);
    OpeningCall(s0, 1);
    OpeningCall(AfterMarkRaiser(s1), 2);
    OpeningCall(AfterMarkBb(AfterMarkRaiser(s2)), 3);
  }

  /** A step-1 call early in that street moves to the next seat. */
  lemma OpeningCall(c: CycleState, seat: nat)
    requires WellFormed(c) && c.size == 6 && c.canMove == Repeat(true, 6) && c.outOfCash == Repeat(false, 6)
    requires c.alive == Repeat(true, 6) && c.checkers == 0 && c.maxStepsTotal == Some(14)
    requires c.maxStepsAfterRaiser == Some(6) && (c.lastRaiser.Some? ==> c.lastRaiser.value >= 0)
    requires 0 <= c.idx < 6 && 0 <= c.counter < 5 && seat == (c.idx + 1) % 6
    ensures AfterNextPlayer(c, 1) == Ok((c.(idx := seat, counter := c.counter + 1), Some(seat)))
  {
    AllSet(6);
    NextPlayerAfterGap(c, 1, seat, 0);
  }

  // ---------------------------------------------------------------------------
  // The class.

  /** `PlayerCycle` of gym_env/env.py. */
  class PlayerCycle {
    var size: nat
    var startIdx: int
    var maxStepsTotal: Option<int>
    var lastRaiserStep: Option<int>
    var maxStepsAfterRaiser: Option<int>
    var lastRaiser: Option<int>
    var counter: int
    var secondRound: bool
    var idx: int
    var dealerIdx: int
    var canMove: seq<bool>
    var alive: seq<bool>
    var outOfCash: seq<bool>
    var checkers: int
    var folder: Option<seq<bool>>

    function State(): CycleState
      reads this
    {
      CycleState(size, startIdx, maxStepsTotal, lastRaiserStep, maxStepsAfterRaiser, lastRaiser, counter,
        secondRound, idx, dealerIdx, canMove, alive, outOfCash, checkers, folder)
    }

    predicate Valid()
      reads this
    {
      WellFormed(State())
    }

    /** `PlayerCycle(lst, start_idx, dealer_idx, max_steps_total, last_raiser_step,
        max_steps_after_raiser)` for a list of `size` players. */
    constructor (size: nat, startIdx: int, dealerIdx: int, maxStepsTotal: Option<int>,
                 lastRaiserStep: Option<int>, maxStepsAfterRaiser: Option<int>)
      ensures Valid()
      ensures State() == Initial(size, startIdx, dealerIdx, maxStepsTotal, lastRaiserStep, maxStepsAfterRaiser)
    {
      this.size := size;
      this.startIdx := startIdx;
      this.maxStepsTotal := maxStepsTotal;
      this.lastRaiserStep := lastRaiserStep;
      this.maxStepsAfterRaiser := maxStepsAfterRaiser;
      lastRaiser := None;
      counter := 0;
      secondRound := false;
      idx := 0;
      this.dealerIdx := dealerIdx;
      alive := Repeat(true, size);
      // new_hand_reset()
      idx := startIdx;
      canMove := Repeat(true, size);
      outOfCash := Repeat(false, size);
      folder := Some(Repeat(false, size));
      counter := 0;
      checkers := 0;
      folder := None;
    }

    method NewHandReset()
      requires Valid()
      modifies this
      ensures Valid() && State() == AfterNewHandReset(old(State()))
    {
      idx := startIdx;
      canMove := Repeat(true, size);
      outOfCash := Repeat(false, size);
      folder := Some(Repeat(false, size));
      counter := 0;
    }

    method NewRoundReset()
      requires Valid()
      modifies this
      ensures Valid() && State() == AfterNewRoundReset(old(State()))
    {
      counter := 0;
      secondRound := false;
      idx := dealerIdx;
      lastRaiserStep := Some(size);
      checkers := 0;
    }

    /** `next_player(step)`, with its `while True` skip loop. */
    method NextPlayer(step: int) returns (r: Result<Option<nat>>)
      requires Valid()
      modifies this
      ensures Valid()
      ensures Returns(r, AfterNextPlayer(old(State()), step), State())
    {
      ghost var c := State();
      if CountTrue(OrSeq(canMove, outOfCash)) < 2 {
        return Ok(None);
      }
      MoveBy(step);
      ghost var moved := AfterNextPlayerMoved(c, step);
      if Truthy(maxStepsTotal) && counter >= maxStepsTotal.value {
        assert AfterNextPlayer(c, step) == Ok((moved, None));
        return Ok(None);
      }
      var raiserReference := if Truthy(lastRaiser) then lastRaiser.value else 0;
      if Truthy(maxStepsAfterRaiser) && counter > maxStepsAfterRaiser.value + raiserReference {
        assert AfterNextPlayer(c, step) == Ok((moved, None));
        return Ok(None);
      }
      if checkers == CountTrue(alive) {
        assert AfterNextPlayer(c, step) == Ok((moved, None));
        return Ok(None);
      }
      assert AfterNextPlayer(c, step) == AfterSkip(moved);
      r := SkipFolded();
    }

    /** The move of `next_player` before its checks: `step` seats on, `step` more steps. */
    method MoveBy(step: int)
      requires Valid() && size > 0
      modifies this
      ensures Valid() && State() == AfterNextPlayerMoved(old(State()), step)
    {
      idx := idx + step;
      counter := counter + step;
      idx := idx % size;
      if counter > size {
        secondRound := true;
      }
    }

    /** The `while True` loop of `next_player`, `update_alive`, and the seat returned. */
    method SkipFolded() returns (r: Result<Option<nat>>)
      requires Valid() && 0 <= idx < size
      modifies this
      ensures Valid()
      ensures Returns(r, AfterSkip(old(State())), State())
    {
      ghost var c := State();
      SkipFails(canMove, idx, counter, maxStepsTotal);
      if CountTrue(canMove) == 0 && !Truthy(maxStepsTotal) {
        // No seat can move and nothing bounds the steps: `while True` never leaves.
        return Err(NeverReturns);
      }
      var seat, steps, end := SkipLoop(canMove, idx, counter, maxStepsTotal);
      ghost var last := c.(idx := seat, counter := steps);
      assert AfterSkip(c) == if end == LimitReached then Ok((last, None))
        else Ok((last.(alive := OrSeq(c.canMove, c.outOfCash)), Some(seat)));
      r := StopAt(seat, steps, end);
    }

    /** Where the skip loop stopped: the seat and the steps taken; on a seat that can move,
        `update_alive` and that seat. */
    method StopAt(seat: nat, steps: int, end: SkipEnd) returns (r: Result<Option<nat>>)
      requires Valid() && seat < size
      modifies this
      ensures Valid()
      ensures end == LimitReached ==> r == Ok(None) && State() == old(State()).(idx := seat, counter := steps)
      ensures end != LimitReached ==>
        r == Ok(Some(seat)) && State() == old(State()).(idx := seat, counter := steps, alive := OrSeq(old(canMove), old(outOfCash)))
    {
      idx, counter := seat, steps;
      if end == LimitReached {
        return Ok(None);
      }
      UpdateAlive();
      return Ok(Some(idx));
    }

    /** `next_dealer`, with its `while True` loop. */
    method NextDealer() returns (r: Result<nat>)
      requires Valid()
      modifies this
      ensures Valid()
      ensures Returns(r, AfterNextDealer(old(State())), State())
    {
      if size == 0 {
        return Err(ZeroDivisionError);
      }
      dealerIdx := dealerIdx + 1;
      dealerIdx := dealerIdx % size;
      if CountTrue(canMove) == 0 {
        // No seat can move: `while True` never leaves.
        return Err(NeverReturns);
      }
      SeekDealer();
      return Ok(dealerIdx);
    }

    /** The `while` loop of `next_dealer`: from the dealer seat on, the first seat that can
        move. */
    method SeekDealer()
      requires Valid() && 0 <= dealerIdx < size && CountTrue(canMove) > 0
      modifies this
      ensures Valid()
      ensures State() == old(State()).(dealerIdx := Advance(old(dealerIdx), Gap(old(canMove), old(dealerIdx), 0), old(size)))
    {
      ghost var start: nat := dealerIdx;
      ghost var entry := State();
      ghost var d := Gap(canMove, start, 0);
      if d == size {
        GapNone(canMove, start);
      }
      ghost var k: nat := 0;
      while !canMove[dealerIdx]
        invariant 0 <= dealerIdx < size && k <= d < size
        invariant State() == entry.(dealerIdx := dealerIdx)
        invariant dealerIdx == Advance(start, k, size)
        decreases d - k
      {
        assert k != d;
        assert Advance(start, k + 1, size) == Next(dealerIdx, size);
        ModNext(dealerIdx, size);
        dealerIdx := dealerIdx + 1;
        dealerIdx := dealerIdx % size;
        k := k + 1;
      }
    }

    method SetIdx(idx: int)
      requires Valid()
      modifies this
      ensures Valid() && State() == AfterSetIdx(old(State()), idx)
    {
      this.idx := idx;
    }

    method DeactivatePlayer(idx: int) returns (st: Status)
      requires Valid()
      modifies this
      ensures Valid()
      ensures Agrees(st, AfterDeactivatePlayer(old(State()), idx), State())
    {
      var i := PyPos(size, idx);
      if i.Err? {
        return Raised(i.error);
      }
      if !canMove[i.value] {
        return Raised(AssertionError);
      }
      canMove := canMove[i.value := false];
      return Done;
    }

    method DeactivateCurrent() returns (st: Status)
      requires Valid()
      modifies this
      ensures Valid()
      ensures Agrees(st, AfterDeactivateCurrent(old(State())), State())
    {
      st := DeactivatePlayer(idx);
    }

    method MarkFolder() returns (st: Status)
      requires Valid()
      modifies this
      ensures Valid()
      ensures Agrees(st, AfterMarkFolder(old(State())), State())
    {
      if folder.None? {
        return Raised(TypeError);
      }
      var i := PyPos(size, idx);
      if i.Err? {
        return Raised(i.error);
      }
      folder := Some(folder.value[i.value := true]);
      return Done;
    }

    method MarkRaiser()
      requires Valid()
      modifies this
      ensures Valid() && State() == AfterMarkRaiser(old(State()))
    {
      lastRaiser := Some(counter);
    }

    method MarkChecker()
      requires Valid()
      modifies this
      ensures Valid() && State() == AfterMarkChecker(old(State()))
    {
      checkers := checkers + 1;
    }

    method MarkOutOfCashButContributed() returns (st: Status)
      requires Valid()
      modifies this
      ensures Valid()
      ensures Agrees(st, AfterMarkOutOfCash(old(State())), State())
    {
      var i := PyPos(size, idx);
      if i.Err? {
        return Raised(i.error);
      }
      outOfCash := outOfCash[i.value := true];
      st := DeactivateCurrent();
    }

    method MarkBb()
      requires Valid()
      modifies this
      ensures Valid() && State() == AfterMarkBb(old(State()))
    {
      lastRaiserStep := Some(counter + size);
      maxStepsTotal := Some(counter + size * 2);
    }

    method RaisingAllowed() returns (r: Result<bool>)
      requires Valid()
      ensures r == IsRaisingAllowed(State())
    {
      if lastRaiserStep.None? {
        return Err(TypeError);
      }
      return Ok(counter <= lastRaiserStep.value);
    }

    method UpdateAlive()
      requires Valid()
      modifies this
      ensures Valid() && State() == AfterUpdateAlive(old(State()))
    {
      alive := OrSeq(canMove, outOfCash);
    }

    method GetPotentialWinners() returns (w: seq<bool>)
      requires Valid()
      ensures w == PotentialWinners(State())
    {
      var n := size;
      var either := OrSeq(canMove, outOfCash);
      var folded := if folder.None? then Repeat(false, n) else folder.value;
      w := seq(n, i requires 0 <= i < n => either[i] && !folded[i]);
    }
  }
}
