/** The helpers of the C++ ranker's header (tools/montecarlo_cpp/Montecarlo.h): the `slice`
    template and the `Hand` card set. */
module MontecarloH {
  import opened Tuples

  /** `slice` compares its int bounds with `v.size()`, an unsigned value, so a negative
      bound converts to a huge unsigned number and is clamped to the size as well. */
  function Clamp(size: nat, m: int): (k: nat)
    ensures k <= size
    ensures 0 <= m <= size ==> k == m
    ensures (m < 0 || m > size) ==> k == size
  {
    if m < 0 || m > size then size else m
  }

  /** `slice(v, m, n)`: the elements from m up to n, both clamped to the size. A range whose
      clamped end lies before its clamped start builds a vector from a reversed iterator
      pair, which C++ leaves undefined: the caller must rule it out. */
  function Slice<T>(v: seq<T>, m: int, n: int): (r: seq<T>)
    requires Clamp(|v|, m) <= Clamp(|v|, n)
    ensures |r| == Clamp(|v|, n) - Clamp(|v|, m)
    ensures forall i :: 0 <= i < |r| ==> r[i] == v[Clamp(|v|, m) + i]
  {
    v[Clamp(|v|, m)..Clamp(|v|, n)]
  }

  /** `slice(v, 0, k)` is the prefix of length min(k, |v|), the same as Python's `v[:k]`. */
  lemma SlicePrefix<T>(v: seq<T>, k: nat)
    ensures Slice(v, 0, k) == Take(v, k)
    ensures |Slice(v, 0, k)| == if k <= |v| then k else |v|
  {
  }

  /** Slices in order cover the vector: v[0..k) followed by v[k..size) is v. */
  lemma SliceSplit<T>(v: seq<T>, k: int)
    requires 0 <= k
    ensures Slice(v, 0, k) + Slice(v, k, |v|) == v
  {
    var c := Clamp(|v|, k);
    assert v[..c] + v[c..] == v;
  }

  /** `struct Hand`: a set of card strings. */
  class Hand {
    var cards: set<string>

    /** `Hand() = default`. */
    constructor ()
      ensures cards == {}
    {
      cards := {};
    }

    /** `Hand(std::set<std::string> cards)`. */
    constructor FromCards(cs: set<string>)
      ensures cards == cs
    {
      cards := cs;
    }

    /** `insert`: std::set::insert adds the card unless it is already there. */
    method Insert(card: string)
      modifies this
      ensures cards == old(cards) + {card}
      ensures card in old(cards) ==> cards == old(cards)
    {
      cards := cards + {card};
    }

    /** `insert_hand`: inserts the other hand's cards one by one; the other hand may be this
        one, in which case nothing changes. */
    method InsertHand(other: Hand)
      modifies this
      ensures cards == old(cards) + old(other.cards)
    {
      var pending := other.cards;
      ghost var source := other.cards;
      while pending != {}
        invariant pending <= source
        invariant cards == old(cards) + (source - pending)
        decreases |pending|
      {
        var card :| card in pending;
        cards := cards + {card};
        pending := pending - {card};
      }
    }
  }
}
