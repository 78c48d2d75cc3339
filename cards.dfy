/** Cards as the repository writes them: two-character strings, a rank character from
    "23456789TJQKA" followed by a suit character from "CDHS". */
module Cards {

  const RANKS: string := "23456789TJQKA"
  const SUITS: string := "CDHS"

  /** Python `str.find` / C++ `std::string::find` for one character: the first index, or -1. */
  function Find(s: string, ch: char): (i: int)
    ensures -1 <= i < |s|
    ensures i >= 0 ==> s[i] == ch && forall k :: 0 <= k < i ==> s[k] != ch
    ensures i == -1 <==> ch !in s
  {
    if s == [] then -1
    else if s[0] == ch then 0
    else var j := Find(s[1..], ch); if j == -1 then -1 else j + 1
  }

  predicate IsCard(c: string) {
    |c| == 2 && c[0] in RANKS && c[1] in SUITS
  }

  predicate AllCards(hand: seq<string>) {
    forall i :: 0 <= i < |hand| ==> IsCard(hand[i])
  }

  /** The rank of a card as an index 0 (deuce) .. 12 (ace). */
  function Rank(c: string): (r: int)
    requires IsCard(c)
    ensures 0 <= r < 13 && RANKS[r] == c[0]
  {
    Find(RANKS, c[0])
  }

  function Suit(c: string): (s: int)
    requires IsCard(c)
    ensures 0 <= s < 4 && SUITS[s] == c[1]
  {
    Find(SUITS, c[1])
  }

  /** The card with rank index r and suit index s. */
  function CardOf(r: int, s: int): (c: string)
    requires 0 <= r < 13 && 0 <= s < 4
    ensures IsCard(c)
  {
    [RANKS[r], SUITS[s]]
  }

  lemma RanksDistinct()
    ensures forall i, j :: 0 <= i < j < 13 ==> RANKS[i] != RANKS[j]
  {
  }

  lemma SuitsDistinct()
    ensures forall i, j :: 0 <= i < j < 4 ==> SUITS[i] != SUITS[j]
  {
  }

  /** No suit letter is a rank letter: the reason counting a rank letter in the joined
      hand counts cards of that rank. */
  lemma RanksAndSuitsDisjoint()
    ensures forall i, j :: 0 <= i < 13 && 0 <= j < 4 ==> RANKS[i] != SUITS[j]
  {
  }

  lemma CardOfParts(r: int, s: int)
    requires 0 <= r < 13 && 0 <= s < 4
    ensures Rank(CardOf(r, s)) == r && Suit(CardOf(r, s)) == s
  {
    RanksDistinct();
    SuitsDistinct();
  }

  /** A card is determined by its rank and suit. */
  lemma CardOfRankSuit(c: string)
    requires IsCard(c)
    ensures CardOf(Rank(c), Suit(c)) == c
  {
  }
}
