/** The seat arithmetic both player cycles share: positions wrap modulo the number of
    seats, and a skip loop walks past seats that can no longer move. */
module Seats {
  import opened Common

  /** Python list indexing: position i of a list of length n, counted from the end when i
      is negative. */
  function PyPos(n: nat, i: int): (r: Result<nat>)
    ensures r.Ok? <==> 0 <= i + n && i < n
    ensures r.Ok? ==> r.value < n && (0 <= i ==> r.value == i) && (i < 0 ==> r.value == n + i)
  {
    if 0 <= i < n then Ok(i) else if 0 <= i + n && i < 0 then Ok(n + i) else Err(IndexError)
  }

  /** The seat after seat i: `(i + 1) % n`. */
  function Next(i: nat, n: nat): (j: nat)
    requires i < n
    ensures j < n
  {
    if i + 1 < n then i + 1 else 0
  }

  /** `i += 1; i %= n` on a seat is the step to the next seat. */
  lemma ModNext(i: nat, n: nat)
    requires i < n
    ensures (i + 1) % n == Next(i, n)
  {
    if i + 1 == n {
      assert (i + 1) % n == 0;
    } else {
      assert (i + 1) % n == i + 1;
    }
  }

  /** The seat k steps round the table after seat i. */
  function Advance(i: nat, k: nat, n: nat): (j: nat)
    requires i < n
    ensures j < n
  {
    if k == 0 then i else Next(Advance(i, k - 1, n), n)
  }

  /** Less than a full circle round, a walk lands on i + k, wrapped once. */
  lemma {:induction false} AdvanceOnce(i: nat, k: nat, n: nat)
    requires i < n && k < n
    ensures Advance(i, k, n) == if i + k < n then i + k else i + k - n
  {
    if k > 0 {
      AdvanceOnce(i, k - 1, n);
    }
  }

  /** The number of seats from `start` (going round the table, `start` itself at distance 0)
      to the first seat whose flag is set, searching from distance k on; the number of
      seats when none is set. */
  function Gap(flags: seq<bool>, start: nat, k: nat): (d: nat)
    requires start < |flags| && k <= |flags|
    ensures k <= d <= |flags|
    ensures d < |flags| ==> flags[Advance(start, d, |flags|)]
    ensures forall j {:trigger flags[Advance(start, j, |flags|)]} :: k <= j < d ==> !flags[Advance(start, j, |flags|)]
    decreases |flags| - k
  {
    if k == |flags| then k
    else if flags[Advance(start, k, |flags|)] then k
    else Gap(flags, start, k + 1)
  }

  /** Every seat is less than a circle away from `start`, so when no seat within the whole
      circle is set, no flag is set at all. */
  lemma GapNone(flags: seq<bool>, start: nat)
    requires start < |flags| && Gap(flags, start, 0) == |flags|
    ensures forall i :: 0 <= i < |flags| ==> !flags[i]
  {
    var n := |flags|;
    forall i | 0 <= i < n ensures !flags[i] {
      var j := if start <= i then i - start else i + n - start;
      AdvanceOnce(start, j, n);
      assert Advance(start, j, n) == i;
    }
  }

  /** How a skip loop ends: on a seat that can move, or on the step limit. */
  datatype SkipEnd = Found | LimitReached

  /** The skip loop of `next_player`: from seat `start` with the step counter at `counter`,
      move one seat (and one step) at a time past seats that cannot move; with a truthy
      step limit, give up as soon as a move brings the counter to the limit. The result is
      the number of seats moved and how the loop ended. With no seat able to move and no
      limit, the loop never returns. */
  function Skip(flags: seq<bool>, start: nat, counter: int, limit: Option<int>): Result<(nat, SkipEnd)>
    requires start < |flags|
  {
    var d := Gap(flags, start, 0);
    if Truthy(limit) && (d == |flags| || (d > 0 && counter + d >= limit.value)) then
      Ok((if limit.value - counter >= 1 then limit.value - counter else 1, LimitReached))
    else if d == |flags| then Err(NeverReturns)
    else Ok((d, Found))
  }

  /** The skip loop never stops exactly when no seat can move and no step limit is set. */
  lemma SkipFails(flags: seq<bool>, start: nat, counter: int, limit: Option<int>)
    requires start < |flags|
    ensures Skip(flags, start, counter, limit).Err? <==>
      !Truthy(limit) && forall i :: 0 <= i < |flags| ==> !flags[i]
  {
    SkipMeaning(flags, start, counter, limit);
  }

  /** What the skip loop promises: it stops on the first seat round the table that can move,
      having passed only seats that cannot; or it stops on the first move that brings the
      counter to the limit, again having passed only seats that cannot move; and it spins
      forever exactly when no seat can move and there is no limit. */
  lemma SkipMeaning(flags: seq<bool>, start: nat, counter: int, limit: Option<int>)
    requires start < |flags|
    ensures Skip(flags, start, counter, limit).Err? <==>
      !Truthy(limit) && forall i :: 0 <= i < |flags| ==> !flags[i]
    ensures Skip(flags, start, counter, limit).Ok? ==>
      var (k, end) := Skip(flags, start, counter, limit).value;
      && (forall j {:trigger flags[Advance(start, j, |flags|)]} :: 0 <= j < k ==> !flags[Advance(start, j, |flags|)])
      && (end == Found ==>
            k < |flags| && flags[Advance(start, k, |flags|)]
            && (Truthy(limit) ==> k == 0 || counter + k < limit.value))
      && (end == LimitReached ==>
            Truthy(limit) && k >= 1 && counter + k >= limit.value
            && (k == 1 || counter + k - 1 < limit.value))
  {
    var d := Gap(flags, start, 0);
    if d == |flags| {
      GapNone(flags, start);
    } else {
      assert flags[Advance(start, d, |flags|)];
    }
  }

  /** Conversely, a walk of k seats past seats that cannot move onto one that can, not
      stopped by the limit on the way, is what the skip loop does. */
  lemma SkipFound(flags: seq<bool>, start: nat, counter: int, limit: Option<int>, k: nat)
    requires start < |flags| && k < |flags| && flags[Advance(start, k, |flags|)]
    requires forall j {:trigger flags[Advance(start, j, |flags|)]} :: 0 <= j < k ==> !flags[Advance(start, j, |flags|)]
    requires Truthy(limit) ==> k == 0 || counter + k < limit.value
    ensures Skip(flags, start, counter, limit) == Ok((k, Found))
  {
    var d := Gap(flags, start, 0);
  }

  /** And a walk of k seats past seats that cannot move, whose last step first brings the
      counter to the limit, is too. */
  lemma SkipLimit(flags: seq<bool>, start: nat, counter: int, limit: Option<int>, k: nat)
    requires start < |flags| && Truthy(limit) && k >= 1 && counter + k >= limit.value
    requires k == 1 || counter + k - 1 < limit.value
    requires forall j {:trigger flags[Advance(start, j, |flags|)]} :: 0 <= j < k ==> !flags[Advance(start, j, |flags|)]
    ensures Skip(flags, start, counter, limit) == Ok((k, LimitReached))
  {
    var d := Gap(flags, start, 0);
  }

  /** The body of both cycles' skip loops: `idx += 1; counter += 1; idx %= n`, leaving
      once the seat can move or, with a truthy limit, once the counter reaches it. Called
      only where the loop returns. */
  method SkipLoop(flags: seq<bool>, start: nat, counter: int, limit: Option<int>)
    returns (seat: nat, steps: int, end: SkipEnd)
    requires start < |flags| && Skip(flags, start, counter, limit).Ok?
    ensures counter <= steps && Skip(flags, start, counter, limit) == Ok((steps - counter, end))
    ensures seat == Advance(start, steps - counter, |flags|)
  {
    var n := |flags|;
    var d := Gap(flags, start, 0);
    SkipMeaning(flags, start, counter, limit);
    if d == n {
      GapNone(flags, start);
    }
    seat, steps := start, counter;
    while !flags[seat]
      invariant 0 <= seat < n
      invariant counter <= steps && seat == Advance(start, steps - counter, n)
      invariant forall j {:trigger flags[Advance(start, j, n)]} :: 0 <= j < steps - counter ==> !flags[Advance(start, j, n)]
      invariant d < n ==> steps - counter <= d
      invariant d == n ==> Truthy(limit)
      invariant Truthy(limit) && steps > counter ==> steps < limit.value
      decreases if d < n then d - (steps - counter)
                else if steps < limit.value then limit.value - steps
                else if steps == counter then 1 else 0
    {
      ModNext(seat, n);
      seat := seat + 1;
      steps := steps + 1;
      seat := seat % n;
      if Truthy(limit) && steps >= limit.value {
        SkipLimit(flags, start, counter, limit, steps - counter);
        return seat, steps, LimitReached;
      }
    }
    SkipFound(flags, start, counter, limit, steps - counter);
    end := Found;
  }

  /** `next_dealer`'s loop: the first seat after `dealer` that can move, or an endless loop
      when there is none. */
  function NextSeat(flags: seq<bool>, dealer: int): (r: Result<nat>)
    requires |flags| > 0
    ensures r.Err? <==> forall i :: 0 <= i < |flags| ==> !flags[i]
    ensures r.Ok? ==> r.value < |flags| && flags[r.value]
  {
    var start := (dealer + 1) % |flags|;
    var d := Gap(flags, start, 0);
    if d == |flags| then
      GapNone(flags, start);
      Err(NeverReturns)
    else
      Ok(Advance(start, d, |flags|))
  }

  /** The dealer moves to the first seat after the old one that can move: every seat
      passed on the way cannot. */
  lemma NextSeatFirst(flags: seq<bool>, dealer: int)
    requires |flags| > 0 && NextSeat(flags, dealer).Ok?
    ensures var start := (dealer + 1) % |flags|;
      exists d :: 0 <= d < |flags| && NextSeat(flags, dealer).value == Advance(start, d, |flags|)
        && forall j {:trigger flags[Advance(start, j, |flags|)]} :: 0 <= j < d ==> !flags[Advance(start, j, |flags|)]
  {
    var start := (dealer + 1) % |flags|;
    var d := Gap(flags, start, 0);
    assert NextSeat(flags, dealer).value == Advance(start, d, |flags|);
  }
}
