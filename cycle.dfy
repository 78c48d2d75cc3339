/** The newer seat rotation of gym_env/cycle.py: the same role as the `PlayerCycle` of
    gym_env/env.py, with a strict step limit, a window of steps allowed without a raise, a
    grace period after the big blind and a raise budget in `mark_bb`. As there, the list is
    the table's players, seat i at position i, so the model keeps only its length and
    returns seat numbers where the source returns list items. */
module Cycle {
  import opened Common
  import opened Seats

  /** `steps_for_blind_betting`, set in the constructor and never changed. */
  const StepsForBlindBetting := 2

  /** Every attribute of a `PlayerCycle`. The optional settings are None until set, and
      `folder` is None between the constructor and the first `new_hand_reset` after it. */
  datatype CycleState = CycleState(
    size: nat,
    startIdx: int,
    maxStepsTotal: Option<int>,
    lastRaiserStep: Option<int>,
    maxStepsAfterRaiser: Option<int>,
    maxStepsAfterBigBlind: Option<int>,
    lastRaiser: Option<int>,
    stepCounter: int,
    roundNumberInStreet: int,
    idx: int,
    dealerIdx: int,
    canMove: seq<bool>,
    alive: seq<bool>,
    outOfCash: seq<bool>,
    checkers: int,
    folder: Option<seq<bool>>,
    maxRaisesPerPlayerRound: int,
    maxRemainingStepsWithoutRaising: int)

  /** The per-seat lists all have one entry per seat. */
  predicate WellFormed(c: CycleState) {
    && |c.canMove| == c.size
    && |c.alive| == c.size
    && |c.outOfCash| == c.size
    && (c.folder.Some? ==> |c.folder.value| == c.size)
  }

  /** `__init__`: it calls `new_hand_reset`, then sets `folder` back to None and opens a
      no-raise window of one step per seat. */
  function Initial(size: nat, startIdx: int, dealerIdx: int, maxStepsTotal: Option<int>,
                   lastRaiserStep: Option<int>, maxStepsAfterRaiser: Option<int>,
                   maxStepsAfterBigBlind: Option<int>, maxRaisesPerPlayerRound: int): (c: CycleState)
    ensures WellFormed(c)
  {
    CycleState(size, startIdx, maxStepsTotal, lastRaiserStep, maxStepsAfterRaiser, maxStepsAfterBigBlind,
      None, 0, 0, startIdx, dealerIdx, Repeat(true, size), Repeat(true, size), Repeat(false, size), 0, None,
      maxRaisesPerPlayerRound, size)
  }

  /** `new_hand_reset`. */
  function AfterNewHandReset(c: CycleState): (r: CycleState)
    requires WellFormed(c)
    ensures WellFormed(r)
  {
    c.(idx := c.startIdx, canMove := Repeat(true, c.size), outOfCash := Repeat(false, c.size),
       folder := Some(Repeat(false, c.size)), stepCounter := 0)
  }

  /** `new_street_reset`: the no-raise window is `len(alive) - 1`, one less than the
      number of seats. */
  function AfterNewStreetReset(c: CycleState): (r: CycleState)
    requires WellFormed(c)
    ensures WellFormed(r)
  {
    c.(stepCounter := 0, roundNumberInStreet := 0, idx := c.dealerIdx, lastRaiserStep := Some(c.size),
       checkers := 0, maxRemainingStepsWithoutRaising := c.size - 1, lastRaiser := None)
  }

  /** The number of seats that can still move or went all in: numpy `+` on the two flag
      arrays is a logical or. */
  function Eligible(c: CycleState): nat
    requires WellFormed(c)
  {
    CountTrue(OrSeq(c.canMove, c.outOfCash))
  }

  /** `next_player(step)`: the state it leaves and the seat it returns (None for False).
      Without a truthy `last_raiser` but with a truthy `max_steps_after_raiser`, a None
      `max_steps_after_big_blind` makes the addition raise TypeError. */
  function AfterNextPlayer(c: CycleState, step: int): Result<(CycleState, Option<nat>)>
    requires WellFormed(c)
  {
    if Eligible(c) < 2 then Ok((c, None))
    else
      var counter := c.stepCounter + step;
      var moved := AfterNextPlayerMoved(c, step);
      if Truthy(c.maxStepsTotal) && counter > c.maxStepsTotal.value then Ok((moved, None))
      else if Truthy(c.lastRaiser) then
        if counter > c.lastRaiser.value + c.maxRemainingStepsWithoutRaising then Ok((moved, None))
        else if Truthy(c.maxStepsAfterRaiser) && counter > c.maxStepsAfterRaiser.value + c.lastRaiser.value
        then Ok((moved, None))
        else AfterChecks(moved)
      else if Truthy(c.maxStepsAfterRaiser) then
        if c.maxStepsAfterBigBlind.None? then Err(TypeError)
        else if counter > c.maxStepsAfterBigBlind.value + StepsForBlindBetting then Ok((moved, None))
        else AfterChecks(moved)
      else AfterChecks(moved)
  }

  /** The last test of `next_player`: it stops when as many seats have checked as are
      alive, and otherwise runs its skip loop. */
  function AfterChecks(c: CycleState): Result<(CycleState, Option<nat>)>
    requires WellFormed(c) && 0 <= c.idx < c.size
  {
    if c.checkers == CountTrue(c.alive) then Ok((c, None)) else AfterSkip(c)
  }

  /** The `while True` loop of `next_player` from the seat it moved to (its limit test is
      `>=`, unlike the strict test before it), then `update_alive` and the seat. */
  function AfterSkip(c: CycleState): Result<(CycleState, Option<nat>)>
    requires WellFormed(c) && 0 <= c.idx < c.size
  {
    var skip :- Skip(c.canMove, c.idx, c.stepCounter, c.maxStepsTotal);
    var last := c.(idx := Advance(c.idx, skip.0, c.size), stepCounter := c.stepCounter + skip.0);
    if skip.1 == LimitReached then Ok((last, None))
    else Ok((last.(alive := OrSeq(last.canMove, last.outOfCash)), Some(last.idx)))
  }

  /** `next_dealer`: with no seats the modulo divides by zero. */
  function AfterNextDealer(c: CycleState): Result<(CycleState, nat)>
    requires WellFormed(c)
  {
    if c.size == 0 then Err(ZeroDivisionError)
    else
      var seat :- NextSeat(c.canMove, c.dealerIdx);
      Ok((c.(dealerIdx := seat), seat))
  }

  /** `set_idx`. */
  function AfterSetIdx(c: CycleState, idx: int): CycleState {
    c.(idx := idx)
  }

  /** `deactivate_player(idx)`: asserts the seat could still move, then clears its flag. */
  function AfterDeactivatePlayer(c: CycleState, idx: int): (r: Result<CycleState>)
    requires WellFormed(c)
    ensures r.Ok? ==> WellFormed(r.value)
  {
    var i :- PyPos(c.size, idx);
    if !c.canMove[i] then Err(AssertionError)
    else Ok(c.(canMove := c.canMove[i := false]))
  }

  /** `deactivate_current`. */
  function AfterDeactivateCurrent(c: CycleState): (r: Result<CycleState>)
    requires WellFormed(c)
    ensures r.Ok? ==> WellFormed(r.value)
  {
    AfterDeactivatePlayer(c, c.idx)
  }

  /** `mark_folder`: item assignment on a None `folder` raises TypeError. */
  function AfterMarkFolder(c: CycleState): (r: Result<CycleState>)
    requires WellFormed(c)
    ensures r.Ok? ==> WellFormed(r.value)
  {
    if c.folder.None? then Err(TypeError)
    else
      var i :- PyPos(c.size, c.idx);
      Ok(c.(folder := Some(c.folder.value[i := true])))
  }

  /** `mark_raiser`. */
  function AfterMarkRaiser(c: CycleState): CycleState {
    c.(lastRaiser := Some(c.stepCounter))
  }

  /** `mark_checker`. */
  function AfterMarkChecker(c: CycleState): CycleState {
    c.(checkers := c.checkers + 1)
  }

  /** `mark_out_of_cash_but_contributed`: sets the flag, then deactivates the seat. */
  function AfterMarkOutOfCash(c: CycleState): (r: Result<CycleState>)
    requires WellFormed(c)
    ensures r.Ok? ==> WellFormed(r.value)
  {
    var i :- PyPos(c.size, c.idx);
    AfterDeactivateCurrent(c.(outOfCash := c.outOfCash[i := true]))
  }

  /** `mark_bb`. */
  function AfterMarkBb(c: CycleState): CycleState {
    c.(lastRaiserStep := Some(c.stepCounter + c.size),
       maxStepsTotal := Some(c.stepCounter + c.size * c.maxRaisesPerPlayerRound + 2))
  }

  /** `is_raising_allowed`: comparing with a None `last_raiser_step` raises TypeError. */
  function IsRaisingAllowed(c: CycleState): Result<bool> {
    if c.lastRaiserStep.None? then Err(TypeError) else Ok(c.stepCounter <= c.lastRaiserStep.value)
  }

  /** `update_alive`. */
  function AfterUpdateAlive(c: CycleState): (r: CycleState)
    requires WellFormed(c)
    ensures WellFormed(r)
  {
    c.(alive := OrSeq(c.canMove, c.outOfCash))
  }

  /** `get_potential_winners`: seats that can move or went all in, and did not fold. numpy
      negates a None `folder` to True, so then nobody counts as folded. */
  function PotentialWinners(c: CycleState): (w: seq<bool>)
    requires WellFormed(c)
    ensures |w| == c.size
  {
    seq(c.size, i requires 0 <= i < c.size =>
      (c.canMove[i] || c.outOfCash[i]) && !(c.folder.Some? && c.folder.value[i]))
  }

  // ---------------------------------------------------------------------------
  // What the operations promise.

  /** After `new_hand_reset` every seat can move, none is all in or folded, and the step
      counter is back at 0 on the start seat. */
  lemma NewHandResetMeaning(c: CycleState)
    requires WellFormed(c)
    ensures var d := AfterNewHandReset(c);
      && d.stepCounter == 0 && d.idx == c.startIdx && d.folder.Some?
      && (forall i :: 0 <= i < c.size ==> d.canMove[i] && !d.outOfCash[i] && !d.folder.value[i])
      && (forall i :: 0 <= i < c.size ==> PotentialWinners(d)[i])
  {
  }

  /** After `new_street_reset` the street starts from the dealer with no raiser, no
      checks, raising allowed for one circle and a no-raise window of n - 1 steps; the
      seats' flags are kept. */
  lemma NewStreetResetMeaning(c: CycleState)
    requires WellFormed(c)
    ensures var d := AfterNewStreetReset(c);
      && d.stepCounter == 0 && d.roundNumberInStreet == 0 && d.idx == c.dealerIdx
      && d.lastRaiser.None? && d.checkers == 0 && d.maxRemainingStepsWithoutRaising == c.size - 1
      && IsRaisingAllowed(d) == Ok(true)
      && IsRaisingAllowed(d.(stepCounter := c.size + 1)) == Ok(false)
      && d.canMove == c.canMove && d.outOfCash == c.outOfCash && d.folder == c.folder
  {
  }

  /** `next_player` gives up, leaving everything unchanged, when fewer than two seats can
      still move or are all in. */
  lemma NextPlayerTooFew(c: CycleState, step: int)
    requires WellFormed(c) && Eligible(c) < 2
    ensures AfterNextPlayer(c, step) == Ok((c, None))
  {
  }

  /** Otherwise it moves `step` seats and `step` steps, and returns False once the counter
      exceeds `max_steps_total` (strictly); with a recorded raiser, once it exceeds the
      raiser's step plus the no-raise window or plus `max_steps_after_raiser`; without
      one and with `max_steps_after_raiser` set, once it exceeds
      `max_steps_after_big_blind` + 2; and when as many seats have
      checked as are alive. */
  lemma NextPlayerStops(c: CycleState, step: int)
    requires WellFormed(c) && Eligible(c) >= 2
    requires var counter := c.stepCounter + step;
      || (Truthy(c.maxStepsTotal) && counter > c.maxStepsTotal.value)
      || (Truthy(c.lastRaiser) && counter > c.lastRaiser.value + c.maxRemainingStepsWithoutRaising)
      || (Truthy(c.lastRaiser) && Truthy(c.maxStepsAfterRaiser)
          && counter > c.maxStepsAfterRaiser.value + c.lastRaiser.value)
      || (!Truthy(c.lastRaiser) && Truthy(c.maxStepsAfterRaiser) && c.maxStepsAfterBigBlind.Some?
          && counter > c.maxStepsAfterBigBlind.value + 2)
      || (c.checkers == CountTrue(c.alive)
          && !(!Truthy(c.lastRaiser) && Truthy(c.maxStepsAfterRaiser) && c.maxStepsAfterBigBlind.None?))
    ensures AfterNextPlayer(c, step).Ok?
    ensures var (d, seat) := AfterNextPlayer(c, step).value;
      && seat.None?
      && d.idx == (c.idx + step) % c.size && d.stepCounter == c.stepCounter + step
      && d.roundNumberInStreet == c.roundNumberInStreet + (if c.stepCounter + step > c.size then 1 else 0)
      && d.canMove == c.canMove && d.alive == c.alive
  {
  }

  /** The grace period after the big blind needs `max_steps_after_big_blind`: without a
      raiser, with `max_steps_after_raiser` set and the strict limit not exceeded, a None
      there raises TypeError. */
  lemma NextPlayerNeedsBigBlindSetting(c: CycleState, step: int)
    requires WellFormed(c) && Eligible(c) >= 2
    requires !(Truthy(c.maxStepsTotal) && c.stepCounter + step > c.maxStepsTotal.value)
    requires !Truthy(c.lastRaiser) && Truthy(c.maxStepsAfterRaiser) && c.maxStepsAfterBigBlind.None?
    ensures AfterNextPlayer(c, step) == Err(TypeError)
  {
  }

  /** When it returns a seat, that seat can move, lies in [0, n), and is the first one that
      can move from (idx + step) mod n on; the counter has grown by `step` plus the seats
      skipped, and `alive` is refreshed. */
  lemma NextPlayerSeat(c: CycleState, step: int)
    requires WellFormed(c) && Eligible(c) >= 2
    requires AfterNextPlayer(c, step).Ok? && AfterNextPlayer(c, step).value.1.Some?
    ensures var (d, seat) := AfterNextPlayer(c, step).value;
      var start := (c.idx + step) % c.size;
      && seat.value == d.idx && 0 <= d.idx < c.size && c.canMove[d.idx]
      && (exists k :: 0 <= k < c.size && d.idx == Advance(start, k, c.size)
            && d.stepCounter == c.stepCounter + step + k
            && forall j {:trigger c.canMove[Advance(start, j, c.size)]} :: 0 <= j < k ==> !c.canMove[Advance(start, j, c.size)])
      && d.alive == OrSeq(c.canMove, c.outOfCash)
      && d.canMove == c.canMove && d.outOfCash == c.outOfCash && d.folder == c.folder
  {
    var moved := AfterNextPlayerMoved(c, step);
    assert moved.idx == (c.idx + step) % c.size && moved.stepCounter == c.stepCounter + step;
    assert moved.canMove == c.canMove && moved.outOfCash == c.outOfCash && moved.folder == c.folder;
    NextPlayerSeatFromSkip(c, step);
    SkipSeat(moved);
  }

  /** A seat can only come from the skip loop. */
  lemma NextPlayerSeatFromSkip(c: CycleState, step: int)
    requires WellFormed(c) && Eligible(c) >= 2
    requires AfterNextPlayer(c, step).Ok? && AfterNextPlayer(c, step).value.1.Some?
    ensures AfterNextPlayer(c, step) == AfterSkip(AfterNextPlayerMoved(c, step))
  {
  }

  /** The state `next_player` has reached once it has moved, before its tests. */
  function AfterNextPlayerMoved(c: CycleState, step: int): (m: CycleState)
    requires WellFormed(c) && c.size > 0
    ensures WellFormed(m) && 0 <= m.idx < m.size
  {
    var counter := c.stepCounter + step;
    c.(idx := (c.idx + step) % c.size, stepCounter := counter,
       roundNumberInStreet := if counter > c.size then c.roundNumberInStreet + 1 else c.roundNumberInStreet)
  }

  /** The seat the skip loop stops on can move and is the first such seat from where it
      started. */
  lemma SkipSeat(c: CycleState)
    requires WellFormed(c) && 0 <= c.idx < c.size
    requires AfterSkip(c).Ok? && AfterSkip(c).value.1.Some?
    ensures var (d, seat) := AfterSkip(c).value;
      && seat.value == d.idx && 0 <= d.idx < c.size && c.canMove[d.idx]
      && (exists k :: 0 <= k < c.size && d.idx == Advance(c.idx, k, c.size)
            && d.stepCounter == c.stepCounter + k
            && forall j {:trigger c.canMove[Advance(c.idx, j, c.size)]} :: 0 <= j < k ==> !c.canMove[Advance(c.idx, j, c.size)])
      && d.alive == OrSeq(c.canMove, c.outOfCash)
      && d.canMove == c.canMove && d.outOfCash == c.outOfCash && d.folder == c.folder
  {
    SkipMeaning(c.canMove, c.idx, c.stepCounter, c.maxStepsTotal);
    var k := Skip(c.canMove, c.idx, c.stepCounter, c.maxStepsTotal).value.0;
    assert AfterSkip(c).value.0.idx == Advance(c.idx, k, c.size);
  }

  /** When nothing stops it, `next_player` returns the first seat that can move k seats
      past the one `step` places on; reaching the limit exactly still returns the seat
      when no seat is skipped. */
  lemma NextPlayerAfterGap(c: CycleState, step: int, start: nat, k: nat)
    requires WellFormed(c) && Eligible(c) >= 2 && start == (c.idx + step) % c.size
    requires !(Truthy(c.maxStepsTotal) && c.stepCounter + step > c.maxStepsTotal.value)
    requires !(Truthy(c.maxStepsTotal) && k > 0 && c.stepCounter + step + k >= c.maxStepsTotal.value)
    requires !Truthy(c.lastRaiser) && !Truthy(c.maxStepsAfterRaiser)
    requires c.checkers != CountTrue(c.alive)
    requires k < c.size && c.canMove[Advance(start, k, c.size)]
    requires forall j {:trigger c.canMove[Advance(start, j, c.size)]} :: 0 <= j < k ==> !c.canMove[Advance(start, j, c.size)]
    ensures var seat := Advance(start, k, c.size);
      var counter := c.stepCounter + step;
      AfterNextPlayer(c, step) == Ok((c.(idx := seat, stepCounter := counter + k,
        roundNumberInStreet := if counter > c.size then c.roundNumberInStreet + 1 else c.roundNumberInStreet,
        alive := OrSeq(c.canMove, c.outOfCash)), Some(seat)))
  {
    var moved := AfterNextPlayerMoved(c, step);
    var seat, alive := Advance(start, k, c.size), OrSeq(c.canMove, c.outOfCash);
    MovedFields(c, step, seat, c.stepCounter + step + k, alive);
    SkipFound(c.canMove, start, c.stepCounter + step, c.maxStepsTotal, k);
    NextPlayerFound(c, step, k, seat);
  }

  /** The skip loop finding a seat k places past the moved-to seat is what `next_player`
      returns, when nothing stops it first. */
  lemma NextPlayerFound(c: CycleState, step: int, k: nat, seat: nat)
    requires WellFormed(c) && Eligible(c) >= 2
    requires !(Truthy(c.maxStepsTotal) && c.stepCounter + step > c.maxStepsTotal.value)
    requires !Truthy(c.lastRaiser) && !Truthy(c.maxStepsAfterRaiser)
    requires c.checkers != CountTrue(c.alive)
    requires var m := AfterNextPlayerMoved(c, step);
      Skip(m.canMove, m.idx, m.stepCounter, m.maxStepsTotal) == Ok((k, Found)) && seat == Advance(m.idx, k, m.size)
    ensures var counter := c.stepCounter + step;
      AfterNextPlayer(c, step) == Ok((c.(idx := seat, stepCounter := counter + k,
        roundNumberInStreet := if counter > c.size then c.roundNumberInStreet + 1 else c.roundNumberInStreet,
        alive := OrSeq(c.canMove, c.outOfCash)), Some(seat)))
  {
    var moved := AfterNextPlayerMoved(c, step);
    var alive := OrSeq(c.canMove, c.outOfCash);
    NextPlayerGoesOn(c, step);
    MovedFields(c, step, seat, c.stepCounter + step + k, alive);
    SkipFoundState(moved, k, seat, c.stepCounter + step + k, alive);
  }

  /** With no raise recorded and neither limit reached, `next_player` goes on to its
      checkers test and then the skip loop. */
  lemma NextPlayerGoesOn(c: CycleState, step: int)
    requires WellFormed(c) && Eligible(c) >= 2
    requires !(Truthy(c.maxStepsTotal) && c.stepCounter + step > c.maxStepsTotal.value)
    requires !Truthy(c.lastRaiser) && !Truthy(c.maxStepsAfterRaiser)
    requires c.checkers != CountTrue(c.alive)
    ensures AfterNextPlayer(c, step) == AfterSkip(AfterNextPlayerMoved(c, step))
  {
  }

  /** What moving changes, and what it leaves for the skip loop to set. */
  lemma MovedFields(c: CycleState, step: int, seat: nat, counter: int, alive: seq<bool>)
    requires WellFormed(c) && c.size > 0
    ensures var m := AfterNextPlayerMoved(c, step);
      var steps := c.stepCounter + step;
      && m.idx == (c.idx + step) % c.size && m.stepCounter == steps && m.size == c.size
      && m.canMove == c.canMove && m.outOfCash == c.outOfCash && m.maxStepsTotal == c.maxStepsTotal
      && m.(idx := seat, stepCounter := counter, alive := alive)
         == c.(idx := seat, stepCounter := counter, alive := alive,
               roundNumberInStreet := if steps > c.size then c.roundNumberInStreet + 1 else c.roundNumberInStreet)
  {
  }

  /** The skip loop stopping on a seat k places on leaves the cycle there, alive refreshed. */
  lemma SkipFoundState(c: CycleState, k: nat, seat: nat, stepCounter: int, alive: seq<bool>)
    requires WellFormed(c) && 0 <= c.idx < c.size
    requires Skip(c.canMove, c.idx, c.stepCounter, c.maxStepsTotal) == Ok((k, Found))
    requires seat == Advance(c.idx, k, c.size) && stepCounter == c.stepCounter + k && alive == OrSeq(c.canMove, c.outOfCash)
    ensures AfterSkip(c) == Ok((c.(idx := seat, stepCounter := stepCounter, alive := alive), Some(seat)))
  {
  }

  /** The skip loop never returns when no seat can move and no step limit is set. */
  lemma NextPlayerNeverReturns(c: CycleState, step: int)
    requires WellFormed(c) && Eligible(c) >= 2 && !Truthy(c.maxStepsTotal)
    requires AfterNextPlayer(c, step) == AfterSkip(AfterNextPlayerMoved(c, step))
    ensures AfterNextPlayer(c, step).Err? <==> forall i :: 0 <= i < c.size ==> !c.canMove[i]
  {
    var m := AfterNextPlayerMoved(c, step);
    SkipMeaning(c.canMove, m.idx, m.stepCounter, c.maxStepsTotal);
  }

  /** `deactivate_player` fails its assertion on a seat already out, and otherwise clears
      that seat's flag and nothing else. */
  lemma DeactivateOnlyThatSeat(c: CycleState, i: nat)
    requires WellFormed(c) && i < c.size
    ensures !c.canMove[i] ==> AfterDeactivatePlayer(c, i) == Err(AssertionError)
    ensures c.canMove[i] ==> AfterDeactivatePlayer(c, i).Ok?
    ensures c.canMove[i] ==>
      var d := AfterDeactivatePlayer(c, i).value;
      && !d.canMove[i]
      && (forall j :: 0 <= j < c.size && j != i ==> d.canMove[j] == c.canMove[j])
      && d == c.(canMove := d.canMove)
  {
  }

  /** An all-in seat is marked and deactivated, so it stays eligible to win but no longer
      moves. */
  lemma OutOfCashMarked(c: CycleState)
    requires WellFormed(c) && 0 <= c.idx < c.size && c.canMove[c.idx]
    ensures AfterMarkOutOfCash(c).Ok?
    ensures var d := AfterMarkOutOfCash(c).value;
      && d.outOfCash[c.idx] && !d.canMove[c.idx]
      && d == c.(outOfCash := c.outOfCash[c.idx := true], canMove := c.canMove[c.idx := false])
      && (d.folder.Some? ==> d.folder.value[c.idx] == c.folder.value[c.idx])
      && (c.folder.None? || !c.folder.value[c.idx] ==> PotentialWinners(d)[c.idx])
  {
  }

  /** A fold clears the seat's move flag and marks it as folded, so it cannot win. */
  lemma FoldedCannotWin(c: CycleState)
    requires WellFormed(c) && 0 <= c.idx < c.size && c.canMove[c.idx] && c.folder.Some?
    ensures AfterDeactivateCurrent(c).Ok?
    ensures AfterMarkFolder(AfterDeactivateCurrent(c).value).Ok?
    ensures var d := AfterMarkFolder(AfterDeactivateCurrent(c).value).value;
      !d.canMove[c.idx] && !PotentialWinners(d)[c.idx]
  {
  }

  /** After `mark_bb`, raising stays allowed for one more circle of the table, and the
      strict step limit lets each seat raise `max_raises_per_player_round` times plus the
      two blind steps. */
  lemma BigBlindWindow(c: CycleState, later: int)
    ensures IsRaisingAllowed(AfterMarkBb(c)) == Ok(true)
    ensures IsRaisingAllowed(AfterMarkBb(c).(stepCounter := later)).Ok?
    ensures IsRaisingAllowed(AfterMarkBb(c).(stepCounter := later)).value <==> later <= c.stepCounter + c.size
    ensures AfterMarkBb(c).maxStepsTotal == Some(c.stepCounter + c.size * c.maxRaisesPerPlayerRound + 2)
  {
  }

  /** The cycle of tests/test_gym_env.py `test_cycle_max_rounds` built from this class:
      four players, start seat 2, `max_steps_total` 5. */
  function MaxRoundsCycle(): (c: CycleState)
    ensures WellFormed(c)
  {
    Initial(4, 2, 0, Some(5), None, None, None, 2)
  }

  /** Its first three calls return seats 3, 0 and 1. */
  lemma MaxRoundsFirstCalls()
    ensures var c0 := MaxRoundsCycle();
      var c1 := c0.(idx := 3, stepCounter := 1);
      var c2 := c1.(idx := 0, stepCounter := 2);
      && AfterNextPlayer(c0, 1) == Ok((c1, Some(3)))
      && AfterNextPlayer(c1, 1) == Ok((c2, Some(0)))
      && AfterNextPlayer(c2, 1) == Ok((c2.(idx := 1, stepCounter := 3), Some(1)))
  {
    var c0 := MaxRoundsCycle();
    var c1 := c0.(idx := 3, stepCounter := 1);
    MaxRoundsCall(c0, 3);
    MaxRoundsCall(c1, 0);
    MaxRoundsCall(c1.(idx := 0, stepCounter := 2), 1);
  }

  /** A call with step 1 on the test's cycle, before the limit, moves to the next seat. */
  lemma MaxRoundsCall(c: CycleState, seat: nat)
    requires c == MaxRoundsCycle().(idx := c.idx, stepCounter := c.stepCounter)
    requires 0 <= c.idx < 4 && 0 <= c.stepCounter < 3 && seat == (c.idx + 1) % 4
    ensures AfterNextPlayer(c, 1) == Ok((c.(idx := seat, stepCounter := c.stepCounter + 1), Some(seat)))
  {
    AllSet(4);
    NextPlayerAfterGap(c, 1, seat, 0);
  }

  /** The fourth call, with step 2, brings the counter to the limit 5 and still returns
      seat 3 (utg), as the test expects; the fifth brings it to 6 and returns False. */
  lemma MaxRoundsLastCalls()
    ensures var c3 := MaxRoundsCycle().(idx := 1, stepCounter := 3);
      var c4 := c3.(idx := 3, stepCounter := 5, roundNumberInStreet := 1);
      && AfterNextPlayer(c3, 2) == Ok((c4, Some(3)))
      && AfterNextPlayer(c4, 1) == Ok((c4.(idx := 0, stepCounter := 6, roundNumberInStreet := 2), None))
  {
    var c3 := MaxRoundsCycle().(idx := 1, stepCounter := 3);
    AllSet(4);
    NextPlayerAfterGap(c3, 2, 3, 0);
    NextPlayerStops(c3.(idx := 3, stepCounter := 5, roundNumberInStreet := 1), 1);
  }

  // ---------------------------------------------------------------------------
  // The class.

  /** `PlayerCycle` of gym_env/cycle.py. */
  class PlayerCycle {
    var size: nat
    var startIdx: int
    var maxStepsTotal: Option<int>
    var lastRaiserStep: Option<int>
    var maxStepsAfterRaiser: Option<int>
    var maxStepsAfterBigBlind: Option<int>
    var lastRaiser: Option<int>
    var stepCounter: int
    var roundNumberInStreet: int
    var idx: int
    var dealerIdx: int
    var canMove: seq<bool>
    var alive: seq<bool>
    var outOfCash: seq<bool>
    var checkers: int
    var folder: Option<seq<bool>>
    var maxRaisesPerPlayerRound: int
    var maxRemainingStepsWithoutRaising: int

    function State(): CycleState
      reads this
    {
      CycleState(size, startIdx, maxStepsTotal, lastRaiserStep, maxStepsAfterRaiser, maxStepsAfterBigBlind,
        lastRaiser, stepCounter, roundNumberInStreet, idx, dealerIdx, canMove, alive, outOfCash, checkers,
        folder, maxRaisesPerPlayerRound, maxRemainingStepsWithoutRaising)
    }

    predicate Valid()
      reads this
    {
      WellFormed(State())
    }

    /** `PlayerCycle(lst, start_idx, dealer_idx, max_steps_total, last_raiser_step,
        max_steps_after_raiser, max_steps_after_big_blind, max_raises_per_player_round)`
        for a list of `size` players. */
    constructor (size: nat, startIdx: int, dealerIdx: int, maxStepsTotal: Option<int>,
                 lastRaiserStep: Option<int>, maxStepsAfterRaiser: Option<int>,
                 maxStepsAfterBigBlind: Option<int>, maxRaisesPerPlayerRound: int)
      ensures Valid()
      ensures State() == Initial(size, startIdx, dealerIdx, maxStepsTotal, lastRaiserStep, maxStepsAfterRaiser,
                                 maxStepsAfterBigBlind, maxRaisesPerPlayerRound)
    {
      this.size := size;
      this.startIdx := startIdx;
      this.maxStepsTotal := maxStepsTotal;
      this.lastRaiserStep := lastRaiserStep;
      this.maxStepsAfterRaiser := maxStepsAfterRaiser;
      this.maxStepsAfterBigBlind := maxStepsAfterBigBlind;
      lastRaiser := None;
      stepCounter := 0;
      roundNumberInStreet := 0;
      idx := 0;
      this.dealerIdx := dealerIdx;
      alive := Repeat(true, size);
      // new_hand_reset()
      idx := startIdx;
      canMove := Repeat(true, size);
      outOfCash := Repeat(false, size);
      folder := Some(Repeat(false, size));
      stepCounter := 0;
      checkers := 0;
      folder := None;
      this.maxRaisesPerPlayerRound := maxRaisesPerPlayerRound;
      maxRemainingStepsWithoutRaising := size;
    }

    method NewHandReset()
      requires Valid()
      modifies this
      ensures Valid() && State() == AfterNewHandReset(old(State()))
    {
      idx := startIdx;
      canMove := Repeat(true, size);
      outOfCash := Repeat(false, size);
      folder := Some(Repeat(false, size));
      stepCounter := 0;
    }

    method NewStreetReset()
      requires Valid()
      modifies this
      ensures Valid() && State() == AfterNewStreetReset(old(State()))
    {
      RestartSteps();
      ForgetRaises();
    }

    /** The step counters go back to 0 and the turn to the dealer's seat. */
    method RestartSteps()
      requires Valid()
      modifies this
      ensures Valid() && State() == old(State()).(stepCounter := 0, roundNumberInStreet := 0, idx := dealerIdx)
    {
      stepCounter, roundNumberInStreet, idx := 0, 0, dealerIdx;
    }

    /** Nobody has raised or checked yet in the new street. */
    method ForgetRaises()
      requires Valid()
      modifies this
      ensures Valid() && State() == old(State()).(lastRaiserStep := Some(size), checkers := 0,
        maxRemainingStepsWithoutRaising := size - 1, lastRaiser := None)
    {
      lastRaiserStep, checkers, maxRemainingStepsWithoutRaising, lastRaiser := Some(size), 0, |alive| - 1, None;
    }

    /** `next_player(step)`, with its `while True` skip loop. */
    method NextPlayer(step: int) returns (r: Result<Option<nat>>)
      requires Valid()
      modifies this
      ensures Valid()
      ensures Returns(r, AfterNextPlayer(old(State()), step), State())
    {
      ghost var c := State();
      if CountTrue(OrSeq(canMove, outOfCash)) < 2 {
        return Ok(None);
      }
      MoveBy(step);
      ghost var moved := AfterNextPlayerMoved(c, step);
      if Truthy(maxStepsTotal) && stepCounter > maxStepsTotal.value {
        assert AfterNextPlayer(c, step) == Ok((moved, None));
        return Ok(None);
      }
      if Truthy(lastRaiser) {
        if stepCounter > lastRaiser.value + maxRemainingStepsWithoutRaising {
          assert AfterNextPlayer(c, step) == Ok((moved, None));
          return Ok(None);
        }
        if Truthy(maxStepsAfterRaiser) && stepCounter > maxStepsAfterRaiser.value + lastRaiser.value {
          assert AfterNextPlayer(c, step) == Ok((moved, None));
          return Ok(None);
        }
      } else if Truthy(maxStepsAfterRaiser) {
        if maxStepsAfterBigBlind.None? {
          return Err(TypeError);
        }
        if stepCounter > maxStepsAfterBigBlind.value + StepsForBlindBetting {
          assert AfterNextPlayer(c, step) == Ok((moved, None));
          return Ok(None);
        }
      }
      assert AfterNextPlayer(c, step) == AfterChecks(moved);
      if checkers == CountTrue(alive) {
        return Ok(None);
      }
      r := SkipFolded();
    }

    /** The move of `next_player` before its checks: `step` seats on, `step` more steps. */
    method MoveBy(step: int)
      requires Valid() && size > 0
      modifies this
      ensures Valid() && State() == AfterNextPlayerMoved(old(State()), step)
    {
      idx := idx + step;
      stepCounter := stepCounter + step;
      idx := idx % size;
      if stepCounter > size {
        roundNumberInStreet := roundNumberInStreet + 1;
      }
    }

    /** The `while True` loop of `next_player`, `update_alive`, and the seat returned. */
    method SkipFolded() returns (r: Result<Option<nat>>)
      requires Valid() && 0 <= idx < size
      modifies this
      ensures Valid()
      ensures Returns(r, AfterSkip(old(State())), State())
    {
      ghost var c := State();
      SkipFails(canMove, idx, stepCounter, maxStepsTotal);
      if CountTrue(canMove) == 0 && !Truthy(maxStepsTotal) {
        // No seat can move and nothing bounds the steps: `while True` never leaves.
        return Err(NeverReturns);
      }
      var seat, steps, end := SkipLoop(canMove, idx, stepCounter, maxStepsTotal);
      ghost var last := c.(idx := seat, stepCounter := steps);
      assert AfterSkip(c) == if end == LimitReached then Ok((last, None))
        else Ok((last.(alive := OrSeq(c.canMove, c.outOfCash)), Some(seat)));
      r := StopAt(seat, steps, end);
    }

    /** Where the skip loop stopped: the seat and the steps taken; on a seat that can move,
        `update_alive` and that seat. */
    method StopAt(seat: nat, steps: int, end: SkipEnd) returns (r: Result<Option<nat>>)
      requires Valid() && seat < size
      modifies this
      ensures Valid()
      ensures end == LimitReached ==> r == Ok(None) && State() == old(State()).(idx := seat, stepCounter := steps)
      ensures end != LimitReached ==>
        r == Ok(Some(seat)) && State() == old(State()).(idx := seat, stepCounter := steps, alive := OrSeq(old(canMove), old(outOfCash)))
    {
      idx, stepCounter := seat, steps;
      if end == LimitReached {
        return Ok(None);
      }
      UpdateAlive();
      return Ok(Some(idx));
    }

    /** `next_dealer`, with its `while True` loop. */
    method NextDealer() returns (r: Result<nat>)
      requires Valid()
      modifies this
      ensures Valid()
      ensures Returns(r, AfterNextDealer(old(State())), State())
    {
      if size == 0 {
        return Err(ZeroDivisionError);
      }
      dealerIdx := dealerIdx + 1;
      dealerIdx := dealerIdx % size;
      if CountTrue(canMove) == 0 {
        // No seat can move: `while True` never leaves.
        return Err(NeverReturns);
      }
      SeekDealer();
      return Ok(dealerIdx);
    }

    /** The `while` loop of `next_dealer`: from the dealer seat on, the first seat that can
        move. */
    method SeekDealer()
      requires Valid() && 0 <= dealerIdx < size && CountTrue(canMove) > 0
      modifies this
      ensures Valid()
      ensures State() == old(State()).(dealerIdx := Advance(old(dealerIdx), Gap(old(canMove), old(dealerIdx), 0), old(size)))
    {
      ghost var start: nat := dealerIdx;
      ghost var entry := State();
      ghost var d := Gap(canMove, start, 0);
      if d == size {
        GapNone(canMove, start);
      }
      ghost var k: nat := 0;
      while !canMove[dealerIdx]
        invariant 0 <= dealerIdx < size && k <= d < size
        invariant State() == entry.(dealerIdx := dealerIdx)
        invariant dealerIdx == Advance(start, k, size)
        decreases d - k
      {
        assert k != d;
        assert Advance(start, k + 1, size) == Next(dealerIdx, size);
        ModNext(dealerIdx, size);
        dealerIdx := dealerIdx + 1;
        dealerIdx := dealerIdx % size;
        k := k + 1;
      }
    }

    method SetIdx(idx: int)
      requires Valid()
      modifies this
      ensures Valid() && State() == AfterSetIdx(old(State()), idx)
    {
      this.idx := idx;
    }

    method DeactivatePlayer(idx: int) returns (st: Status)
      requires Valid()
      modifies this
      ensures Valid()
      ensures Agrees(st, AfterDeactivatePlayer(old(State()), idx), State())
    {
      var i := PyPos(size, idx);
      if i.Err? {
        return Raised(i.error);
      }
      if !canMove[i.value] {
        return Raised(AssertionError);
      }
      canMove := canMove[i.value := false];
      return Done;
    }

    method DeactivateCurrent() returns (st: Status)
      requires Valid()
      modifies this
      ensures Valid()
      ensures Agrees(st, AfterDeactivateCurrent(old(State())), State())
    {
      st := DeactivatePlayer(idx);
    }

    method MarkFolder() returns (st: Status)
      requires Valid()
      modifies this
      ensures Valid()
      ensures Agrees(st, AfterMarkFolder(old(State())), State())
    {
      if folder.None? {
        return Raised(TypeError);
      }
      var i := PyPos(size, idx);
      if i.Err? {
        return Raised(i.error);
      }
      folder := Some(folder.value[i.value := true]);
      return Done;
    }

    method MarkRaiser()
      requires Valid()
      modifies this
      ensures Valid() && State() == AfterMarkRaiser(old(State()))
    {
      lastRaiser := Some(stepCounter);
    }

    method MarkChecker()
      requires Valid()
      modifies this
      ensures Valid() && State() == AfterMarkChecker(old(State()))
    {
      checkers := checkers + 1;
    }

    method MarkOutOfCashButContributed() returns (st: Status)
      requires Valid()
      modifies this
      ensures Valid()
      ensures Agrees(st, AfterMarkOutOfCash(old(State())), State())
    {
      var i := PyPos(size, idx);
      if i.Err? {
        return Raised(i.error);
      }
      outOfCash := outOfCash[i.value := true];
      st := DeactivateCurrent();
    }

    method MarkBb()
      requires Valid()
      modifies this
      ensures Valid() && State() == AfterMarkBb(old(State()))
    {
      lastRaiserStep := Some(stepCounter + size);
      maxStepsTotal := Some(stepCounter + size * maxRaisesPerPlayerRound + 2);
    }

    method RaisingAllowed() returns (r: Result<bool>)
      requires Valid()
      ensures r == IsRaisingAllowed(State())
    {
      if lastRaiserStep.None? {
        return Err(TypeError);
      }
      return Ok(stepCounter <= lastRaiserStep.value);
    }

    method UpdateAlive()
      requires Valid()
      modifies this
      ensures Valid() && State() == AfterUpdateAlive(old(State()))
    {
      alive := OrSeq(canMove, outOfCash);
    }

    method GetPotentialWinners() returns (w: seq<bool>)
      requires Valid()
      ensures w == PotentialWinners(State())
    {
      var n := size;
      var either := OrSeq(canMove, outOfCash);
      var folded := if folder.None? then Repeat(false, n) else folder.value;
      w := seq(n, i requires 0 <= i < n => either[i] && !folded[i]);
    }
  }
}
